/** The game's objects and the operations that update them in place: the
    cities' cube tables, the global cube pool, the two decks and their discard
    piles, the players' hands, the turn's action budget, and the setup
    sequence of `set_items`. Each method is tied to the function of the pure
    modules that states what it computes. */
module Pandemic {
  import opened Errors
  import opened Cards
  import opened Infection
  import Decks
  import Actions
  import Setup

  /** A permutation of a list: `random.shuffle`, as a parameter. */
  ghost predicate IsShuffle<T(!new)>(f: seq<T> -> seq<T>) {
    forall x :: multiset(f(x)) == multiset(x)
  }

  // ---------------------------------------------------------------------
  // Cities
  // ---------------------------------------------------------------------

  class City {
    const name: string
    const connected: seq<string>
    /** `cubes` */
    var cubes: Cubes
    /** `total_cubes` */
    var total: int

    constructor (name: string, connected: seq<string>)
      ensures this.name == name && this.connected == connected
      ensures cubes == NoCubes && total == 0
    {
      this.name := name;
      this.connected := connected;
      cubes := NoCubes;
      total := 0;
    }

    /** `infect_self(color, num_of_cubes)` on the city at position `k` of
        the game; `visited` is the list of cities that have outbroken so far
        in this cascade. */
    method InfectSelf(game: Game, ghost k: nat, color: Color, n: int, visited: seq<string>)
      returns (visited': seq<string>)
      requires game.CubesValid() && k < |game.cities| && game.cities[k] == this
      modifies game`pool, game`board, game.cities
      ensures game.CubesValid()
      ensures game.State(visited') == Infect(game.graph, old(game.State(visited)), k, color, n)
      decreases Unvisited(game.graph, game.State(visited)), 1
    {
      if total < 3 {
        Place(game, k, color, n);
        visited' := visited;
      } else {
        visited' := Outbreak(game, k, color, visited);
      }
    }

    /** The first branch of `infect_self`: the cubes go onto the city and
        leave the pool. */
    method Place(game: Game, ghost k: nat, color: Color, n: int)
      requires game.CubesValid() && k < |game.cities| && game.cities[k] == this
      modifies this, game`pool, game`board
      ensures game.CubesValid()
      ensures game.board == old(game.board)[k := AddCubes(old(game.board)[k], color, n)]
      ensures game.pool == old(game.pool).Set(color, old(game.pool).Get(color) - n)
    {
      PlaceSound(game.board, game.pool, k, color, n);
      cubes := cubes.Set(color, cubes.Get(color) + n);
      total := total + n;
      game.pool := game.pool.Set(color, game.pool.Get(color) - n);
      game.board := game.board[k := CityCubes(cubes, total)];
      assert forall i :: 0 <= i < |game.cities| && i != k ==> game.cities[i] != this;
    }

    /** `outbreak(color)`: unless the city is already on `visited`, it is
        added and each connected city, in order, gets one cube. */
    method Outbreak(game: Game, ghost k: nat, color: Color, visited: seq<string>)
      returns (visited': seq<string>)
      requires game.CubesValid() && k < |game.cities| && game.cities[k] == this
      modifies game`pool, game`board, game.cities
      ensures game.CubesValid()
      ensures game.State(visited') == Infection.Outbreak(game.graph, old(game.State(visited)), k, color)
      decreases Unvisited(game.graph, game.State(visited)), 0
    {
      ghost var g := game.graph;
      ghost var s := game.State(visited);
      if name in visited {
        return visited;
      }
      visited' := visited + [name];
      UnvisitedShrinks(g, s, k);
      visited' := game.Spread(connected, color, visited', Unvisited(g, game.State(visited')));
    }

    /** `treat_self(color)` on the city at position `k`: a cured colour
        returns all the city's cubes of that colour to the pool, any other
        colour returns one, and `total_cubes` goes down by the cubes removed
        (the source leaves it unchanged; see `Infection.TreatAsWritten`). */
    method TreatSelf(game: Game, ghost k: nat, color: Color)
      requires game.CubesValid() && k < |game.cities| && game.cities[k] == this
      modifies this, game`pool, game`board
      ensures game.CubesValid()
      ensures var t := Treat(old(game.board)[k], old(game.pool), color, game.cured);
              game.board == old(game.board)[k := t.city] && game.pool == t.pool
    {
      ghost var t := Treat(game.board[k], game.pool, color, game.cured);
      TreatSound(game.board, game.pool, k, color, game.cured);
      var removed := if color in game.cured then cubes.Get(color) else 1;
      game.pool := game.pool.Set(color, game.pool.Get(color) + removed);
      cubes := cubes.Set(color, cubes.Get(color) - removed);
      total := total - removed;
      assert CityCubes(cubes, total) == t.city && game.pool == t.pool;
      game.board := game.board[k := t.city];
      assert forall i :: 0 <= i < |game.cities| && i != k ==> game.cities[i] != this;
    }
  }

  /** One city object per entry of `graph`, named and connected as it says,
      no object twice; names are distinct (they are the keys of
      `gameCities`). */
  ghost predicate LaidOut(graph: seq<CityInfo>, cities: seq<City>) {
    && |cities| == |graph|
    && DistinctNames(graph)
    && (forall i :: 0 <= i < |cities| ==>
          cities[i].name == graph[i].name && cities[i].connected == graph[i].connected)
    && (forall i, j :: 0 <= i < j < |cities| ==> cities[i] != cities[j])
  }

  /** `board` is the list of the cities' cube tables. */
  ghost predicate Mirrored(board: seq<CityCubes>, cities: seq<City>)
    reads cities
  {
    && |board| == |cities|
    && (forall i :: 0 <= i < |cities| ==> board[i] == CityCubes(cities[i].cubes, cities[i].total))
  }

  /** The loop of `create_players_cities_and_deck` that makes one city
      object per entry of the city list, with no cubes. */
  method NewCities(graph: seq<CityInfo>) returns (cs: seq<City>, ghost b: seq<CityCubes>)
    requires DistinctNames(graph)
    ensures |b| == |cs| && EmptyBoard(b)
    ensures LaidOut(graph, cs) && Mirrored(b, cs)
    ensures forall j :: 0 <= j < |cs| ==> fresh(cs[j])
  {
    cs, b := [], [];
    for i := 0 to |graph|
      invariant |cs| == i && |b| == i
      invariant forall j :: 0 <= j < i ==>
                  && cs[j].name == graph[j].name && cs[j].connected == graph[j].connected
                  && cs[j].cubes == NoCubes && cs[j].total == 0 && b[j] == CityCubes(NoCubes, 0)
                  && fresh(cs[j])
      invariant forall j, l :: 0 <= j < l < i ==> cs[j] != cs[l]
    {
      var c := new City(graph[i].name, graph[i].connected);
      cs, b := cs + [c], b + [CityCubes(NoCubes, 0)];
    }
  }

  // ---------------------------------------------------------------------
  // Hands and players
  // ---------------------------------------------------------------------

  /** `PlayerHand`: the list of cards a player holds. */
  class PlayerHand {
    var cards: seq<Card>

    constructor ()
      ensures cards == []
    {
      cards := [];
    }

    /** `UpdateCardsReceiver.add_card`: the card goes to the end of the hand. */
    method AddCard(card: Card)
      modifies this
      ensures cards == old(cards) + [card]
    {
      cards := cards + [card];
    }

    /** `UpdateCardsReceiver.remove_card`: `list.remove` of the card, a
        ValueError when the hand does not hold it. */
    method RemoveCard(card: Card) returns (err: Option<PyError>)
      modifies this
      ensures match Decks.Remove(old(cards), card)
              case Err(e) => err == Some(e) && cards == old(cards)
              case Ok(rest) => err.None? && cards == rest
    {
      match Decks.Remove(cards, card)
      case Err(e) =>
        err := Some(e);
      case Ok(rest) =>
        cards := rest;
        err := None;
    }

    /** `discard(card)`: the card leaves the hand and goes on top of the
        player discard pile; no card is created or lost. */
    method Discard(game: Game, card: Card) returns (err: Option<PyError>)
      modifies this, game`playerDiscards
      ensures match Decks.Remove(old(cards), card)
              case Err(e) => err == Some(e) && cards == old(cards) && game.playerDiscards == old(game.playerDiscards)
              case Ok(rest) => err.None? && cards == rest && game.playerDiscards == old(game.playerDiscards) + [card]
      ensures multiset(cards) + multiset(game.playerDiscards)
              == old(multiset(cards) + multiset(game.playerDiscards))
    {
      err := RemoveCard(card);
      if err.None? {
        game.playerDiscards := game.playerDiscards + [card];
      }
    }
  }

  /** `Player`: a role, a hand and a location, "Atlanta" at the start. */
  class Player {
    const role: Role
    const hand: PlayerHand
    var location: string

    constructor (role: Role)
      ensures this.role == role && location == "Atlanta"
      ensures fresh(hand) && hand.cards == []
    {
      this.role := role;
      hand := new PlayerHand();
      location := "Atlanta";
    }
  }

  /** The loop of `create_players_cities_and_deck` that makes one player per
      role of `PlayerRoles`. */
  method NewPlayers(roles: seq<Role>) returns (ps: seq<Player>)
    ensures |ps| == |roles|
    ensures forall i :: 0 <= i < |ps| ==>
              && ps[i].role == roles[i] && ps[i].location == "Atlanta" && ps[i].hand.cards == []
              && fresh(ps[i].hand)
    ensures forall i, j :: 0 <= i < j < |ps| ==> ps[i].hand != ps[j].hand
  {
    ps := [];
    for i := 0 to |roles|
      invariant |ps| == i
      invariant forall j :: 0 <= j < i ==>
                  && ps[j].role == roles[j] && ps[j].location == "Atlanta" && ps[j].hand.cards == []
                  && fresh(ps[j].hand)
      invariant forall j, l :: 0 <= j < l < i ==> ps[j].hand != ps[l].hand
    {
      var p := new Player(roles[i]);
      ps := ps + [p];
    }
  }

  // ---------------------------------------------------------------------
  // The decks
  // ---------------------------------------------------------------------

  /** `for item in chunk: chunk_list.append(item)` */
  method AppendAll(list: seq<Card>, chunk: seq<Card>) returns (list': seq<Card>)
    ensures list' == list + chunk
  {
    list' := list;
    for j := 0 to |chunk|
      invariant list' == list + chunk[..j]
    {
      list' := list' + [chunk[j]];
    }
    assert chunk[..|chunk|] == chunk;
  }

  /** One turn of the loop of `add_pandemic_cards`: the shuffled slice at
      `from`, with its epidemic card, extends the pieces built so far. */
  lemma ShuffledPiece(d: seq<Card>, s: nat, from: nat, num: nat, pieces: seq<seq<Card>>,
                      shuffle: seq<Card> -> seq<Card>)
    requires s > 0 && from < |d| && Decks.AtChunk(d, s, from, num) && IsShuffle(shuffle)
    requires |pieces| == num && Decks.PiecesMatch(Decks.Chunks(d, s), pieces)
    ensures var chunk := d[from..if from + s <= |d| then from + s else |d|];
            && Decks.AtChunk(d, s, from + s, num + 1)
            && Decks.PiecesMatch(Decks.Chunks(d, s), pieces + [shuffle(chunk + [Epidemic(num)])])
  {
    var chunk := d[from..if from + s <= |d| then from + s else |d|];
    var piece := shuffle(chunk + [Epidemic(num)]);
    assert multiset(piece) == multiset(chunk + [Epidemic(num)]);
    Decks.PiecesStep(d, s, from, num, pieces, piece);
  }

  /** The loop of `add_pandemic_cards` over the slices of `chunk_cards`
      with a positive step `s`: slice number `num` gets the epidemic card
      `["Epidemic", [5, 6, num + 1]]` and is shuffled, then its cards are
      appended to the new deck. */
  method EpidemicDeck(d: seq<Card>, s: nat, shuffle: seq<Card> -> seq<Card>)
    returns (deck: seq<Card>, ghost pieces: seq<seq<Card>>)
    requires s > 0 && IsShuffle(shuffle)
    ensures deck == Decks.Flatten(pieces) && Decks.EpidemicLayout(d, s, pieces)
    ensures multiset(deck) == multiset(d) + multiset(Decks.EpidemicsFrom(0, Decks.CeilDiv(|d|, s)))
    ensures |deck| == |d| + Decks.CeilDiv(|d|, s)
  {
    ghost var chunks := Decks.Chunks(d, s);
    deck, pieces := [], [];
    var i: nat, num: nat := 0, 0;
    while i < |d|
      invariant Decks.AtChunk(d, s, i, num)
      invariant |pieces| == num && deck == Decks.Flatten(pieces)
      invariant Decks.PiecesMatch(chunks, pieces)
      decreases |d| - i
    {
      var chunk := d[i..if i + s <= |d| then i + s else |d|];
      var piece := shuffle(chunk + [Epidemic(num)]);
      ShuffledPiece(d, s, i, num, pieces, shuffle);
      deck := AppendAll(deck, piece);
      Decks.FlattenSnoc(pieces, piece);
      pieces := pieces + [piece];
      i, num := i + s, num + 1;
    }
    assert Decks.ChunksFrom(d, s, i) == [];
    assert |chunks[num..]| == 0;
    Decks.EpidemicDeckCards(d, s, pieces);
  }

  /** `PlayerDeck`: the list of player cards; the top of the deck is its
      end. */
  class PlayerDeck {
    var deck: seq<Card>

    constructor (cards: seq<Card>)
      ensures deck == cards
    {
      deck := cards;
    }

    /** `shuffle()` */
    method Shuffle(shuffle: seq<Card> -> seq<Card>)
      requires IsShuffle(shuffle)
      modifies this
      ensures deck == shuffle(old(deck)) && multiset(deck) == multiset(old(deck))
    {
      deck := shuffle(deck);
    }

    /** `draw(index)`: `list.pop`, the last card without an index. */
    method Draw(index: Option<int>) returns (r: Result<Card>)
      modifies this
      ensures match Decks.Pop(old(deck), index)
              case Err(e) => r == Err(e) && deck == old(deck)
              case Ok((card, rest)) => r == Ok(card) && deck == rest
      ensures r.Ok? ==> multiset(deck) + multiset{r.value} == old(multiset(deck))
    {
      match Decks.Pop(deck, index)
      case Err(e) =>
        r := Err(e);
      case Ok((card, rest)) =>
        deck := rest;
        r := Ok(card);
    }

    /** `add_pandemic_cards()`: each slice `chunk_cards` yields gets the
        epidemic card of its number, is shuffled and is appended, card by
        card, to the new deck. `round(N / E)` raising (E = 0), a step of 0
        (`range` raises) and a negative step (no slice at all) are the three
        other outcomes. `pieces` are the shuffled slices. */
    method AddPandemicCards(epidemics: int, shuffle: seq<Card> -> seq<Card>)
      returns (err: Option<PyError>, ghost pieces: seq<seq<Card>>)
      requires IsShuffle(shuffle)
      modifies this
      ensures var step := Decks.ChunkStep(|old(deck)|, epidemics);
              && (step.Err? ==> err == Some(ZeroDivisionError) && deck == old(deck))
              && (step == Ok(0) ==> err == Some(ValueError) && deck == old(deck))
              && (step.Ok? && step.value < 0 ==> err.None? && deck == [])
              && (step.Ok? && step.value > 0 ==>
                    && err.None? && deck == Decks.Flatten(pieces)
                    && Decks.EpidemicLayout(old(deck), step.value, pieces)
                    && multiset(deck) == multiset(old(deck))
                         + multiset(Decks.EpidemicsFrom(0, Decks.CeilDiv(|old(deck)|, step.value)))
                    && |deck| == |old(deck)| + Decks.CeilDiv(|old(deck)|, step.value))
      ensures err == Decks.AddEpidemicsError(|old(deck)|, epidemics)
      ensures Decks.EpidemicsAdded(old(deck), epidemics, deck, pieces)
    {
      pieces := [];
      var step := Decks.ChunkStep(|deck|, epidemics);
      if step.Err? {
        return Some(ZeroDivisionError), [];
      }
      var s := step.value;
      if s == 0 {
        return Some(ValueError), [];
      }
      if s < 0 {
        deck := [];
        return None, [];
      }
      deck, pieces := EpidemicDeck(deck, s, shuffle);
      err := None;
    }
  }

  /** `InfectionDeck`: the list of infection cards; the top of the deck is
      its end. */
  class InfectionDeck {
    var deck: seq<InfectionCard>

    constructor (cards: seq<InfectionCard>)
      ensures deck == cards
    {
      deck := cards;
    }

    /** `shuffle()` */
    method Shuffle(shuffle: seq<InfectionCard> -> seq<InfectionCard>)
      requires IsShuffle(shuffle)
      modifies this
      ensures deck == shuffle(old(deck)) && multiset(deck) == multiset(old(deck))
    {
      deck := shuffle(deck);
    }

    /** `draw(index)`: the card the first `pop(index)` removes goes to
        `InfectionDeck_Discards`, and a second `pop(index)` gives the card
        drawn. */
    method Draw(game: Game, index: Option<int>) returns (r: Result<InfectionCard>)
      modifies this, game`infectionDiscards
      ensures var t := Decks.DrawTwice(old(deck), old(game.infectionDiscards), index);
              r == t.drawn && deck == t.deck && game.infectionDiscards == t.discards
    {
      var first := Decks.Pop(deck, index);
      if first.Err? {
        return Err(first.error);
      }
      deck := first.value.1;
      game.infectionDiscards := game.infectionDiscards + [first.value.0];
      var second := Decks.Pop(deck, index);
      if second.Err? {
        return Err(second.error);
      }
      deck := second.value.1;
      r := Ok(second.value.0);
    }

    /** `infect_city(num_of_cubes)`: the drawn card's city gets
        `infect_self(card[2], num_of_cubes)`; `visited` is the outbreak list
        of the cascade in progress. */
    method InfectCity(game: Game, n: int, visited: seq<string>)
      returns (err: Option<PyError>, visited': seq<string>)
      requires game.CubesValid()
      modifies this, game`infectionDiscards, game`pool, game`board, game.cities
      ensures game.CubesValid()
      ensures var t := Setup.InfectCity(game.graph,
                         Setup.Seeding(old(game.State(visited)), old(deck), old(game.infectionDiscards), None), n);
              && game.State(visited') == t.board && deck == t.deck
              && game.infectionDiscards == t.discards && err == t.error
    {
      var card := Draw(game, None);
      Decks.DrawTwiceTop(old(deck), old(game.infectionDiscards));
      if card.Err? {
        return Some(card.error), visited;
      }
      var j := game.Lookup(card.value.city);
      err, visited' := None, visited;
      if j.Some? {
        visited' := game.cities[j.value].InfectSelf(game, j.value, card.value.color, n, visited);
      }
    }
  }

  // ---------------------------------------------------------------------
  // Share knowledge through the card receiver
  // ---------------------------------------------------------------------

  /** What the commands read about a player: the role, the location (with
      whether that city is one of `stations`, the cities with a research
      station) and the cards in hand. */
  function View(p: Player, stations: set<string>): Actions.PlayerView
    reads p, p.hand
  {
    Actions.PlayerView(p.role, Actions.Place(p.location, p.location in stations), p.hand.cards)
  }

  /** `ShareKnowledge.execute`: when the checks pass, the card receiver's
      `remove_card` takes the card from the giver's hand and its `add_card`
      appends it to the receiver's; a card the giver does not hold raises
      ValueError before anything is appended. Between two players this is
      `Actions.ShareKnowledge`; a player sharing with itself gets the card
      moved to the end of its hand. */
  method ShareKnowledge(giver: Player, receiver: Player, card: Card, stations: set<string>)
    returns (err: Option<PyError>)
    modifies giver.hand, receiver.hand
    ensures giver.hand != receiver.hand ==>
              match Actions.ShareKnowledge(old(View(giver, stations)), old(View(receiver, stations)), card)
              case Err(e) =>
                err == Some(e) && giver.hand.cards == old(giver.hand.cards) && receiver.hand.cards == old(receiver.hand.cards)
              case Ok(pair) =>
                err.None? && giver.hand.cards == pair.giver.hand && receiver.hand.cards == pair.receiver.hand
    ensures giver.hand == receiver.hand ==>
              if !Actions.MayShare(old(View(giver, stations)), old(View(receiver, stations)), card) then
                err.None? && giver.hand.cards == old(giver.hand.cards)
              else
                match Decks.Remove(old(giver.hand.cards), card)
                case Err(e) => err == Some(e) && giver.hand.cards == old(giver.hand.cards)
                case Ok(rest) => err.None? && giver.hand.cards == rest + [card]
  {
    if !Actions.MayShare(View(giver, stations), View(receiver, stations), card) {
      return None;
    }
    err := giver.hand.RemoveCard(card);
    if err.Some? {
      return;
    }
    receiver.hand.AddCard(card);
  }

  // ---------------------------------------------------------------------
  // The turn
  // ---------------------------------------------------------------------

  /** `Turn`: the player whose turn it is, the cities that have outbroken
      during the turn, and the actions left. */
  class Turn {
    const player: Player
    var currentOutbreaks: seq<string>
    var playerActions: int

    constructor (player: Player)
      ensures this.player == player && currentOutbreaks == [] && playerActions == Actions.ActionsPerTurn
    {
      this.player := player;
      currentOutbreaks := [];
      playerActions := Actions.ActionsPerTurn;
    }

    /** `player_action(action)`: a 'Move' while actions are left spends one
        action; anything else changes nothing. */
    method PlayerAction(action: string) returns (performed: bool)
      modifies this`playerActions
      ensures performed == Actions.Performs(old(playerActions), action)
      ensures playerActions == Actions.BudgetAfter(old(playerActions), [action])
    {
      performed := false;
      if playerActions > 0 {
        if action == "Move" {
          performed := true;
          playerActions := playerActions - 1;
        }
      }
    }

    /** An infection during the turn: the cascade records its outbreaks in
        `current_outbreaks`, so no city outbreaks twice in one turn. */
    method Infect(game: Game, k: nat, color: Color, n: int)
      requires game.CubesValid() && k < |game.cities|
      modifies this`currentOutbreaks, game`pool, game`board, game.cities
      ensures game.CubesValid()
      ensures game.State(currentOutbreaks) == Infection.Infect(game.graph, old(game.State(currentOutbreaks)), k, color, n)
    {
      currentOutbreaks := game.cities[k].InfectSelf(game, k, color, n, currentOutbreaks);
    }
  }

  // ---------------------------------------------------------------------
  // The game
  // ---------------------------------------------------------------------

  class Game {
    /** The names and connections of `gameCities`, one per city object. */
    const graph: seq<CityInfo>
    /** `gameCities`, in the order of `graph`. */
    const cities: seq<City>
    /** `InfectionCubes` */
    var pool: Cubes
    /** The cube tables of `cities`, in order. */
    ghost var board: seq<CityCubes>
    /** `Players` */
    const players: seq<Player>
    /** `PlayerDeck` */
    const playerDeck: PlayerDeck
    /** `InfectionDeck` */
    const infectionDeck: InfectionDeck
    /** `PlayerDeck_Discards` */
    var playerDiscards: seq<Card>
    /** `InfectionDeck_Discards` */
    var infectionDiscards: seq<InfectionCard>
    /** `number_of_epidemics` */
    const numberOfEpidemics: int
    /** `CuredDiseases` */
    var cured: seq<Color>
    /** `epidemicpulls` */
    var epidemicPulls: int
    /** `draw_requirements` */
    var drawRequirements: int

    /** The cube state of the board, with the outbreak list of the cascade
        in progress. */
    ghost function State(visited: seq<string>): BoardState
      reads this`board, this`pool
    {
      BoardState(board, pool, visited)
    }

    /** The players' hands: no two players share one. */
    ghost predicate PlayersValid() {
      forall i, j :: 0 <= i < j < |players| ==> players[i].hand != players[j].hand
    }

    ghost function Hands(): set<PlayerHand> {
      set i | 0 <= i < |players| :: players[i].hand
    }

    ghost predicate Layout() {
      LaidOut(graph, cities)
    }

    ghost predicate Mirrors()
      reads this`board, cities
    {
      Mirrored(board, cities)
    }

    /** The cities as laid out, mirrored by `board`, and a sound cube state:
        every city's total counts its cubes, and each colour has 24 cubes on
        the board and in the pool together. */
    ghost predicate CubesValid()
      reads this`board, this`pool, cities
    {
      Layout() && Mirrors() && Sound(board, pool)
    }

    /** `Game(...)` followed by `create_players_cities_and_deck()`: one
        player per role, in order, the two decks as given, one empty city per
        entry of `graph`, 24 cubes per colour in the pool, no discards, no
        cure, no epidemic pulled yet and so two cards to draw. */
    constructor (graph: seq<CityInfo>, playerCards: seq<Card>, infectionCards: seq<InfectionCard>,
                 roles: seq<Role>, numberOfEpidemics: int)
      requires DistinctNames(graph)
      ensures playerDeck.deck == playerCards && infectionDeck.deck == infectionCards
      ensures playerDiscards == [] && infectionDiscards == []
      ensures this.numberOfEpidemics == numberOfEpidemics && cured == []
      ensures epidemicPulls == 0 && drawRequirements == Decks.DrawRequirement(epidemicPulls).value == 2
      ensures this.graph == graph && pool == StartingPool
      ensures |players| == |roles|
      ensures forall i :: 0 <= i < |players| ==>
                players[i].role == roles[i] && players[i].location == "Atlanta" && players[i].hand.cards == []
      ensures EmptyBoard(board) && Layout() && Mirrors()
      ensures PlayersValid()
      ensures fresh(playerDeck) && fresh(infectionDeck)
      ensures forall i :: 0 <= i < |cities| ==> fresh(cities[i])
      ensures forall i :: 0 <= i < |players| ==> fresh(players[i].hand)
    {
      this.graph := graph;
      pool := StartingPool;
      playerDiscards := [];
      infectionDiscards := [];
      this.numberOfEpidemics := numberOfEpidemics;
      cured := [];
      epidemicPulls := 0;
      Decks.DrawRequirementMonotone(0, 0);
      drawRequirements := Decks.DrawRequirement(0).value;
      playerDeck := new PlayerDeck(playerCards);
      infectionDeck := new InfectionDeck(infectionCards);
      var ps := NewPlayers(roles);
      var cs, b := NewCities(graph);
      players, cities, board := ps, cs, b;
      new;
    }

    /** The cube state of a new game is valid: with no cube on any city and
        24 of each colour in the pool, every total counts its city's cubes
        and each colour is all accounted for. */
    lemma NewGameValid()
      requires Layout() && Mirrors() && EmptyBoard(board) && pool == StartingPool
      ensures CubesValid()
    {
      EmptyBoardSound(board);
    }

    /** The deal of `set_items`: `rounds` rounds, each giving every player in
        turn the first card of the player deck (`draw(0)`). It raises
        IndexError as soon as the deck runs out. */
    method Deal(rounds: nat) returns (err: Option<PyError>)
      requires PlayersValid()
      modifies playerDeck, Hands()
      ensures var d, p := old(playerDeck.deck), |players|;
              && (err.None? <==> rounds * p <= |d|)
              && (err.Some? ==> err == Some(IndexError))
      ensures var d, p := old(playerDeck.deck), |players|;
              rounds * p <= |d| ==>
                && playerDeck.deck == d[rounds * p..]
                && forall i :: 0 <= i < p ==>
                     players[i].hand.cards == old(players[i].hand.cards) + Decks.DealtRounds(d, p, i, rounds)
    {
      ghost var d := playerDeck.deck;
      ghost var start := seq(|players|, i requires 0 <= i < |players| reads Hands() => players[i].hand.cards);
      var p := |players|;
      for r := 0 to rounds
        invariant r * p <= |d| && playerDeck.deck == d[r * p..]
        invariant forall i :: 0 <= i < p ==> players[i].hand.cards == start[i] + Decks.Dealt(d, p, i, r, 0)
      {
        err := DealRound(d, start, r);
        if err.Some? {
          Decks.MulMonotone(r + 1, rounds, p);
          return;
        }
      }
      return None;
    }

    /** One round of the deal: every player in turn draws the first card. */
    method DealRound(ghost d: seq<Card>, ghost start: seq<seq<Card>>, r: nat) returns (err: Option<PyError>)
      requires PlayersValid() && |start| == |players|
      requires r * |players| <= |d| && playerDeck.deck == d[r * |players|..]
      requires forall i :: 0 <= i < |players| ==> players[i].hand.cards == start[i] + Decks.Dealt(d, |players|, i, r, 0)
      modifies playerDeck, Hands()
      ensures err.None? <==> (r + 1) * |players| <= |d|
      ensures err.Some? ==> err == Some(IndexError)
      ensures err.None? ==>
                && playerDeck.deck == d[(r + 1) * |players|..]
                && forall i :: 0 <= i < |players| ==> players[i].hand.cards == start[i] + Decks.Dealt(d, |players|, i, r + 1, 0)
    {
      var p := |players|;
      ghost var base := r * p;
      assert base + p == (r + 1) * p;
      for j := 0 to p
        invariant base + j <= |d| && playerDeck.deck == d[base + j..]
        invariant forall i :: 0 <= i < p ==> players[i].hand.cards == start[i] + Decks.Dealt(d, p, i, r, j)
      {
        err := ServeInRound(d, start, r, j);
        if err.Some? {
          return;
        }
      }
      forall i | 0 <= i < p
        ensures Decks.Dealt(d, p, i, r, p) == Decks.Dealt(d, p, i, r + 1, 0)
      {
        Decks.DealtRoundEnd(d, p, i, r);
      }
      err := None;
    }

    /** Player `j`'s turn in round `r` of the deal: the next card of the deck
        goes to that player and to no other. */
    method ServeInRound(ghost d: seq<Card>, ghost start: seq<seq<Card>>, r: nat, j: nat) returns (err: Option<PyError>)
      requires PlayersValid() && |start| == |players| && j < |players|
      requires r * |players| + j <= |d| && playerDeck.deck == d[r * |players| + j..]
      requires forall i :: 0 <= i < |players| ==> players[i].hand.cards == start[i] + Decks.Dealt(d, |players|, i, r, j)
      modifies playerDeck, players[j].hand
      ensures err.None? <==> r * |players| + j < |d|
      ensures err.Some? ==> err == Some(IndexError)
      ensures err.None? ==>
                && playerDeck.deck == d[r * |players| + j + 1..]
                && forall i :: 0 <= i < |players| ==> players[i].hand.cards == start[i] + Decks.Dealt(d, |players|, i, r, j + 1)
    {
      var p := |players|;
      ghost var next := r * p + j;
      label serve:
      err := DealCard(j);
      if err.Some? {
        return;
      }
      assert d[next..][1..] == d[next + 1..];
      forall i | 0 <= i < p
        ensures players[i].hand.cards == start[i] + Decks.Dealt(d, p, i, r, j + 1)
      {
        Decks.DealtStep(d, p, i, r, j);
        if i != j {
          assert players[i].hand != players[j].hand;
          assert players[i].hand.cards == old@serve(players[i].hand.cards);
        }
      }
    }

    /** Player `j` draws the first card of the player deck, `draw(0)`, into
        the hand; IndexError when the deck is empty. */
    method DealCard(j: nat) returns (err: Option<PyError>)
      requires PlayersValid() && j < |players|
      modifies playerDeck, players[j].hand
      ensures err.None? <==> |old(playerDeck.deck)| > 0
      ensures err.Some? ==> err == Some(IndexError) && playerDeck.deck == old(playerDeck.deck)
      ensures err.None? ==>
                && playerDeck.deck == old(playerDeck.deck)[1..]
                && players[j].hand.cards == old(players[j].hand.cards) + [old(playerDeck.deck)[0]]
      ensures multiset(playerDeck.deck) + multiset(players[j].hand.cards)
              == old(multiset(playerDeck.deck) + multiset(players[j].hand.cards))
    {
      if |playerDeck.deck| > 0 {
        Decks.PopFront(playerDeck.deck);
      }
      var card := playerDeck.Draw(Some(0));
      if card.Err? {
        return Some(IndexError);
      }
      players[j].hand.AddCard(card.value);
      err := None;
    }

    /** The infections of `set_items`: three calls of `infect_city(3)`,
        three of `infect_city(2)` and three of `infect_city(1)`; the first
        exception ends them. */
    method SeedCities(visited: seq<string>) returns (err: Option<PyError>, visited': seq<string>)
      requires CubesValid()
      modifies infectionDeck, this`infectionDiscards, this`pool, this`board, cities
      ensures CubesValid()
      ensures var t := Setup.Seed(graph, Setup.Seeding(old(State(visited)), old(infectionDeck.deck),
                                                       old(infectionDiscards), None), Setup.SetupAmounts);
              && State(visited') == t.board && infectionDeck.deck == t.deck
              && infectionDiscards == t.discards && err == t.error
    {
      ghost var t0 := Setup.Seeding(State(visited), infectionDeck.deck, infectionDiscards, None);
      Setup.SetupAmountsAreLoops();
      Setup.SeedConcat(graph, t0, Setup.Repeat(3, 3) + Setup.Repeat(2, 3), Setup.Repeat(1, 3));
      Setup.SeedConcat(graph, t0, Setup.Repeat(3, 3), Setup.Repeat(2, 3));
      err, visited' := InfectTimes(3, 3, visited);
      if err.Some? {
        return;
      }
      err, visited' := InfectTimes(2, 3, visited');
      if err.Some? {
        return;
      }
      err, visited' := InfectTimes(1, 3, visited');
    }

    /** `set_items`: both decks are shuffled; `6 - len(Players)` rounds of
        the deal take one card per player per round from the front of the
        player deck; the epidemic cards go into what is left of it; then
        nine infections of 3, 3, 3, 2, 2, 2, 1, 1, 1 cubes, which record
        their outbreaks in one list started empty. The first exception
        ends the sequence. `pieces` are the shuffled chunks of the player
        deck. */
    method SetItems(shufflePlayers: seq<Card> -> seq<Card>, shuffleInfections: seq<InfectionCard> -> seq<InfectionCard>)
      returns (err: Option<PyError>, visited: seq<string>, ghost pieces: seq<seq<Card>>)
      requires CubesValid() && PlayersValid() && IsShuffle(shufflePlayers) && IsShuffle(shuffleInfections)
      modifies playerDeck, infectionDeck, Hands(), this`infectionDiscards, this`pool, this`board, cities
      ensures CubesValid()
      ensures var p, rounds := |players|, Setup.DealRounds(|players|);
              var d := shufflePlayers(old(playerDeck.deck));
              && (rounds * p > |d| ==> err == Some(IndexError) && State(visited) == old(State([])))
              && (rounds * p <= |d| ==>
                    forall i :: 0 <= i < p ==> players[i].hand.cards == old(players[i].hand.cards) + Decks.DealtRounds(d, p, i, rounds))
      ensures var p, rounds := |players|, Setup.DealRounds(|players|);
              var d := shufflePlayers(old(playerDeck.deck));
              rounds * p <= |d| ==>
                var raised := Decks.AddEpidemicsError(|d[rounds * p..]|, numberOfEpidemics);
                && Decks.EpidemicsAdded(d[rounds * p..], numberOfEpidemics, playerDeck.deck, pieces)
                && (raised.Some? ==> err == raised && State(visited) == old(State([])))
                && (raised.None? ==>
                      var t := Setup.Seed(graph, Setup.Seeding(old(State([])), shuffleInfections(old(infectionDeck.deck)),
                                                               old(infectionDiscards), None), Setup.SetupAmounts);
                      && State(visited) == t.board && infectionDeck.deck == t.deck
                      && infectionDiscards == t.discards && err == t.error)
    {
      playerDeck.Shuffle(shufflePlayers);
      infectionDeck.Shuffle(shuffleInfections);
      err, visited, pieces := DealAndInfect(shufflePlayers);
    }

    /** What `set_items` does once both decks are shuffled: the deal, the
        epidemic cards, then the nine infections. The first exception ends
        the sequence. */
    method DealAndInfect(shuffle: seq<Card> -> seq<Card>)
      returns (err: Option<PyError>, visited: seq<string>, ghost pieces: seq<seq<Card>>)
      requires CubesValid() && PlayersValid() && IsShuffle(shuffle)
      modifies playerDeck, infectionDeck, Hands(), this`infectionDiscards, this`pool, this`board, cities
      ensures CubesValid()
      ensures var p, rounds, d := |players|, Setup.DealRounds(|players|), old(playerDeck.deck);
              && (rounds * p > |d| ==> err == Some(IndexError) && State(visited) == old(State([])))
              && (rounds * p <= |d| ==>
                    forall i :: 0 <= i < p ==> players[i].hand.cards == old(players[i].hand.cards) + Decks.DealtRounds(d, p, i, rounds))
      ensures var p, rounds, d := |players|, Setup.DealRounds(|players|), old(playerDeck.deck);
              rounds * p <= |d| ==>
                var raised := Decks.AddEpidemicsError(|d[rounds * p..]|, numberOfEpidemics);
                && Decks.EpidemicsAdded(d[rounds * p..], numberOfEpidemics, playerDeck.deck, pieces)
                && (raised.Some? ==> err == raised && State(visited) == old(State([])))
                && (raised.None? ==>
                      var t := Setup.Seed(graph, Setup.Seeding(old(State([])), old(infectionDeck.deck),
                                                               old(infectionDiscards), None), Setup.SetupAmounts);
                      && State(visited) == t.board && infectionDeck.deck == t.deck
                      && infectionDiscards == t.discards && err == t.error)
    {
      ghost var board0, pool0 := board, pool;
      visited := [];
      err, pieces := PreparePlayerDeck(shuffle);
      assert CubesValid() && State([]) == BoardState(board0, pool0, []);
      if err.Some? {
        return;
      }
      err, visited := SeedCities([]);
    }

    /** The player cards of `set_items`: the deal, then `add_pandemic_cards()`.
        Only the player deck and the hands change. */
    method PreparePlayerDeck(shuffle: seq<Card> -> seq<Card>) returns (err: Option<PyError>, ghost pieces: seq<seq<Card>>)
      requires PlayersValid() && IsShuffle(shuffle)
      modifies playerDeck, Hands()
      ensures var p, rounds, d := |players|, Setup.DealRounds(|players|), old(playerDeck.deck);
              && (rounds * p > |d| ==> err == Some(IndexError))
              && (rounds * p <= |d| ==>
                    && (forall i :: 0 <= i < p ==>
                          players[i].hand.cards == old(players[i].hand.cards) + Decks.DealtRounds(d, p, i, rounds))
                    && err == Decks.AddEpidemicsError(|d[rounds * p..]|, numberOfEpidemics)
                    && Decks.EpidemicsAdded(d[rounds * p..], numberOfEpidemics, playerDeck.deck, pieces))
    {
      pieces := [];
      err := Deal(Setup.DealRounds(|players|));
      if err.Some? {
        return;
      }
      err, pieces := playerDeck.AddPandemicCards(numberOfEpidemics, shuffle);
    }

    /** One loop of `set_items`: `count` calls of `infect_city(n)`; the
        first exception ends it. */
    method InfectTimes(n: int, count: nat, visited: seq<string>) returns (err: Option<PyError>, visited': seq<string>)
      requires CubesValid()
      modifies infectionDeck, this`infectionDiscards, this`pool, this`board, cities
      ensures CubesValid()
      ensures var t := Setup.Seed(graph, Setup.Seeding(old(State(visited)), old(infectionDeck.deck),
                                                       old(infectionDiscards), None), Setup.Repeat(n, count));
              && State(visited') == t.board && infectionDeck.deck == t.deck
              && infectionDiscards == t.discards && err == t.error
    {
      ghost var target := Setup.Seed(graph, Setup.Seeding(State(visited), infectionDeck.deck,
                                                          infectionDiscards, None), Setup.Repeat(n, count));
      visited', err := visited, None;
      for i := 0 to count
        invariant CubesValid() && err.None?
        invariant Setup.Seed(graph, Setup.Seeding(State(visited'), infectionDeck.deck, infectionDiscards, None),
                             Setup.Repeat(n, count - i)) == target
      {
        Setup.SeedRepeat(graph, Setup.Seeding(State(visited'), infectionDeck.deck, infectionDiscards, None), n, count - i);
        err, visited' := infectionDeck.InfectCity(this, n, visited');
        if err.Some? {
          return;
        }
      }
    }

    /** The loop of `outbreak` over `connected_cities`; `bound` is the
        measure of the outbreak in progress. */
    method Spread(conns: seq<string>, color: Color, visited: seq<string>, ghost bound: nat)
      returns (visited': seq<string>)
      requires CubesValid() && Unvisited(graph, State(visited)) <= bound
      modifies this`pool, this`board, cities
      ensures CubesValid()
      ensures State(visited') == SpreadTo(graph, old(State(visited)), conns, color)
      decreases bound, 3
    {
      ghost var target := SpreadTo(graph, State(visited), conns, color);
      visited' := visited;
      for i := 0 to |conns|
        invariant CubesValid()
        invariant SpreadTo(graph, State(visited'), conns[i..], color) == target
        invariant Unvisited(graph, State(visited')) <= bound
      {
        visited' := InfectNeighbour(conns[i..], color, visited', bound);
        assert conns[i..][1..] == conns[i + 1..];
      }
      assert conns[|conns|..] == [];
    }

    /** One turn of the loop of `outbreak`: the first name of `conns`, when
        it is the key of a city, gives that city one cube; `bound` is the
        measure of the outbreak in progress. */
    method InfectNeighbour(conns: seq<string>, color: Color, visited: seq<string>, ghost bound: nat)
      returns (visited': seq<string>)
      requires CubesValid() && |conns| > 0 && Unvisited(graph, State(visited)) <= bound
      modifies this`pool, this`board, cities
      ensures CubesValid()
      ensures SpreadTo(graph, State(visited'), conns[1..], color) ==
              SpreadTo(graph, old(State(visited)), conns, color)
      ensures Unvisited(graph, State(visited')) <= old(Unvisited(graph, State(visited)))
      decreases bound, 2
    {
      var j := Lookup(conns[0]);
      visited' := visited;
      if j.Some? {
        visited' := cities[j.value].InfectSelf(this, j.value, color, 1, visited);
      }
    }

    /** The inner loop of `outbreak` and `infect_city`: the first city whose
        name is `name`. */
    method Lookup(name: string) returns (r: Option<nat>)
      requires CubesValid()
      ensures r == Find(graph, name)
    {
      for i := 0 to |cities|
        invariant forall j :: 0 <= j < i ==> graph[j].name != name
      {
        if cities[i].name == name {
          FindOwnName(graph, i);
          return Some(i);
        }
      }
      return None;
    }
  }
}
