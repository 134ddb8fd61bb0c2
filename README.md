# Pandemic rules engine: a Dafny model

This project models the rules engine of `PandemicApp.py`, a simulator of the
cooperative board game Pandemic, and proves properties of that model. The
modelled parts are:

- **Cube state.** Each city has a `cubes` table and a `total_cubes` counter.
  The game holds the `InfectionCubes` pool, 24 cubes per colour at the start.
- **Infection and treatment.** `City.infect_self` places cubes while the city
  holds fewer than 3 cubes in all, and otherwise calls `outbreak`.
  `City.outbreak` sends one cube to every connected city. `City.treat_self`
  returns cubes to the pool.
- **Decks.** `PlayerDeck.draw` is a `list.pop`. `chunk_cards` and
  `add_pandemic_cards` build the epidemic deck. `InfectionDeck.draw` pops
  twice. `infect_city` infects the city the drawn card names.
  `PlayerHand.discard` moves a card to the discard pile.
- **Setup.** `Game.set_items` shuffles both decks and deals `6 - len(Players)`
  rounds from the front of the player deck. It then adds the epidemic cards
  and infects nine cities with 3, 3, 3, 2, 2, 2, 1, 1 and 1 cubes.
- **Turns and actions.** A turn starts with a budget of four actions. The
  model covers the checks of `ShareKnowledge`, `DiscoverCure`, `ShuttleFlight`
  and `CharterFlight`, and the card transfer of `UpdateCardsReceiver`.

The project has seven modules:

- `Errors` (in `cards.dfy`): Python's exceptions as values (`IndexError`,
  `ValueError`, `ZeroDivisionError`, `KeyError`) inside `Option` and `Result`.
- `Cards`: colours, cube tables, roles and the two card kinds.
- `Decks`: `list.pop`, `list.remove`, `round`, `chunk_cards`, the
  epidemic-deck layout, the two-pop infection draw, the deal and the
  `draw_states` table.
- `Infection`: the cube state as a value; the infection cascade, treatment,
  conservation of cubes, and who outbreaks.
- `Setup`: the nine infections of `set_items` as a function.
- `Actions`: the action budget and the four command checks, over a value
  that describes a player.
- `Pandemic` (`pandemic.dfy`): the game's objects as classes whose methods
  update fields in place. These are `City`, `PlayerHand`, `Player`,
  `PlayerDeck`, `InfectionDeck`, `Turn` and `Game`. Each method that changes
  cubes, decks or hands is proved against the function of the pure modules
  that specifies it. The constructors, `NewCities`, `NewPlayers`,
  `AppendAll`, `PlayerHand.AddCard` and the `Shuffle` methods state their
  effect directly.
  - `Game` keeps a ghost copy, `board`, of the cities' cube tables.
  - `Game.CubesValid()` is the invariant every cube-changing method keeps.
    Under it the cities are laid out as the city graph says, `board` mirrors
    them, every `total_cubes` counts its city's cubes, and each colour has 24
    cubes on the board and in the pool together.

The infection cascade threads a list of the cities that have outbroken so far.
The `Turn` docstring describes this list as `current_outbreaks`. A city
already on the list does not outbreak again, so each city outbreaks at most
once per cascade. The cascade terminates because the number of cities not yet
on the list decreases.

Where the code and the written design of the game differ, the model follows
the code:

- `infect_self` tests `total_cubes < 3` over all colours, not the count of
  the colour being placed.
- Cubes are added without clamping: three cubes on a city holding two give
  five (`Infection.InfectionIsUnclamped`).
- There is no outbreak counter and no check that the pool stays non-negative.
- `chunk_cards` yields `ceil(N / s)` slices with `s = round(N / E)`, which
  can differ from `E`. Ten cards with four epidemics give five epidemic cards
  (`Decks.TenCardsGiveFiveEpidemics`).
- `InfectionDeck.draw` pops twice: the first card is discarded and the second
  is returned.
- `draw_states` raises `KeyError` beyond six epidemic pulls; it does not
  clamp.

## Model

| member | source | states |
|---|---|---|
| Cards.Epidemic | PandemicApp.py:160 | the card appended to chunk `num` is an epidemic card whose three-number payload ends in `num + 1` |
| Actions.BudgetAccounting | PandemicApp.py:185-195 | from a non-negative budget, each performed action costs exactly one; the budget stays between 0 and its start; the calls perform min(budget, number of 'Move' requests) actions |
| Actions.Performs | PandemicApp.py:190-195 | `player_action` performs an action exactly when budget is left and the action is 'Move' |
| Actions.BudgetAfter | PandemicApp.py:190-195 | the budget after a run of calls never exceeds the budget before it |
| Actions.Performed | PandemicApp.py:190-195 | a run of calls performs at most one action per call |
| Actions.TurnPerformsAtMostFour | PandemicApp.py:179-195 | a turn starting at 4 performs at most four actions, and exactly four exactly when at least four moves are requested |
| Actions.ShuttleFlight | PandemicApp.py:404-408 | the player moves to the target exactly when both cities have research stations; otherwise nothing changes; the hand and role never change |
| Actions.CharterFlight | PandemicApp.py:391-395 | the player moves to the target exactly when the hand holds the target city's card, which stays in hand; otherwise nothing changes |
| Actions.ShareKnowledge | PandemicApp.py:423-435 | when the checks fail, both players are unchanged; when they pass and the giver lacks the card, the result is ValueError; otherwise the card leaves the giver's hand (one fewer card, multiset less the card) and is appended to the receiver's; roles and places never change |
| Actions.ShareKnowledgeConserves | PandemicApp.py:423-435 | sharing never creates or loses a card across the two hands; the hands change exactly when the checks pass and the giver holds the card |
| Actions.MayShare | PandemicApp.py:423-427 | sharing is allowed exactly when both players are in the same place and either one is a Researcher or the card names that place |
| Actions.CardsNeeded | PandemicApp.py:448-457 | a cure needs 4 cards for a Scientist and 5 for any other role |
| Actions.FirstOfColor | PandemicApp.py:450-452 | the position of a card of the colour with no card of the colour before it, or none exactly when the hand holds no card of that colour |
| Actions.MayDiscoverCure | PandemicApp.py:448-457 | a cure is allowed exactly at a research station with at least the cards the role needs of the colour |
| Actions.DiscoverCure | PandemicApp.py:447-463 | the cure succeeds exactly at a research station with enough cards of the colour; the hand then loses exactly one card of that colour, the first one, and nothing else changes |
| Decks.PopPosition | PandemicApp.py:142-145 | `pop()` removes the last position; `pop(i)` removes `i`, or `n + i` for a negative `i`; an empty list or an out-of-range index is an IndexError |
| Decks.Pop | PandemicApp.py:138-145 | the popped card is the one at that position; the others stay in order; card multiset conserved; IndexError exactly when the position does not exist |
| Decks.PopFront | PandemicApp.py:67 | `pop(0)` returns the first card and leaves the rest in order |
| Decks.PopTop | PandemicApp.py:143 | `pop()` returns the last card and leaves the rest in order |
| Decks.FirstIndex | PandemicApp.py:530 | the first position holding the card, or none exactly when the list lacks it |
| Decks.Remove | PandemicApp.py:325 | `list.remove` drops the first occurrence (multiset less one copy, length one less), or raises ValueError exactly when the card is absent |
| Decks.RoundDiv | PandemicApp.py:149 | Python 3 `round(n / d)`: within half of `d` of `n`, ties go to the even integer |
| Decks.ChunkStep | PandemicApp.py:149 | the slicing step raises ZeroDivisionError exactly when E is 0; for E > 0 it is positive when 2N > E and zero when 2N < E |
| Decks.ChunksFrom | PandemicApp.py:147-150 | every slice from a start position is non-empty and holds at most the step `s` of cards |
| Decks.Chunks | PandemicApp.py:147-150 | every slice `chunk_cards` yields is non-empty and holds at most `s` cards |
| Decks.ChunksShape | PandemicApp.py:147-150 | the slices concatenate back to the deck; there are ceil(N / s) of them; each holds `s` cards except the last, which holds between 1 and `s` |
| Decks.ChunksFromShape | PandemicApp.py:149-150 | the same, for the slices from any start position |
| Decks.EpidemicLayout | PandemicApp.py:152-165 | the pieces of a rebuilt deck correspond one to one to the chunks, each a permutation of its chunk plus that chunk's epidemic card |
| Decks.AddEpidemicsError | PandemicApp.py:149-150 | `add_pandemic_cards` raises ZeroDivisionError when E is 0, ValueError when the step is 0, and nothing otherwise |
| Decks.EpidemicsAdded | PandemicApp.py:147-165 | the deck `add_pandemic_cards` leaves: unchanged when it raises, empty for a negative step, the epidemic layout for a positive step |
| Decks.EpidemicDeckCards | PandemicApp.py:152-165 | the new deck holds the old cards plus one epidemic card per chunk, numbered 1 to ceil(N / s); its length is N + ceil(N / s) |
| Decks.EpidemicPerChunk | PandemicApp.py:159-161 | when the old deck held no epidemic card, shuffled chunk k has one card more than its slice and holds exactly one epidemic card, numbered k + 1 |
| Decks.TenCardsGiveFiveEpidemics | PandemicApp.py:149-150 | a 10-card deck with 4 epidemics gives step 2 and five chunks |
| Decks.DrawTwice | PandemicApp.py:217-226 | IndexError with nothing changed when the first pop fails; otherwise the first popped card is discarded; a successful draw removes two cards, and deck, discarded card and drawn card together hold the old deck |
| Decks.DrawTwiceTop | PandemicApp.py:221-223 | without an index: success exactly when the deck holds two cards; the top card is discarded and the one beneath is returned; with one card, that card is still discarded |
| Decks.DealtRounds | PandemicApp.py:65-67 | the cards player i receives over the rounds of the deal, one per round |
| Decks.DealtRoundsAt | PandemicApp.py:65-67 | after the deal, card k of player i is card `k * players + i` of the deck |
| Decks.DealtStep | PandemicApp.py:66-67 | serving the next player adds the next card to that player's hand only |
| Decks.DealtRoundEnd | PandemicApp.py:65-66 | a completed round is the start of the next |
| Decks.DrawRequirement | PandemicApp.py:42-43 | `draw_states[pulls]` is between 2 and 4 for 0 to 6 pulls, and otherwise a KeyError |
| Decks.DrawRequirementMonotone | PandemicApp.py:42-43 | more epidemic pulls never lower the draw count; a new game draws 2 |
| Infection.Find | PandemicApp.py:235-236 | the position of the city whose name is the key sought, or none exactly when no city has it |
| Infection.FindOwnName | PandemicApp.py:57 | with distinct names (dict keys), a city's own name finds that city |
| Infection.Infect | PandemicApp.py:260-273 | `infect_self` only appends to the outbreak list, never records a city twice, never raises the unvisited count, and records a city holding 3 or more cubes |
| Infection.Outbreak | PandemicApp.py:275-283 | the outbreaking city is on the list afterwards, appended right after the old list when it was not already on it; no name is recorded twice |
| Infection.SpreadTo | PandemicApp.py:279-283 | the loop over connections only extends the outbreak list and never records a name twice |
| Infection.InfectConserves | PandemicApp.py:264-267 | infection keeps each colour's cubes on the board plus in the pool, and keeps every `total_cubes` equal to its city's cubes |
| Infection.OutbreakConserves | PandemicApp.py:275-283 | the same for an outbreak cascade |
| Infection.SpreadConserves | PandemicApp.py:279-283 | the same for the loop over connections |
| Infection.EmptyBoardStocked | PandemicApp.py:35-40 | empty cities and a fresh pool hold 24 cubes of each colour |
| Infection.EmptyBoardSound | PandemicApp.py:247-253 | a new board of empty cities with a full pool satisfies the cube invariant |
| Infection.PlaceSound | PandemicApp.py:264-267 | placing cubes taken from the pool keeps the cube invariant |
| Infection.InfectSound | PandemicApp.py:260-273 | `infect_self`, cascade included, keeps the cube invariant |
| Infection.OutbreakSound | PandemicApp.py:275-283 | `outbreak` keeps the cube invariant |
| Infection.InfectSettles | PandemicApp.py:264-273 | no city's total falls, and a city holding 3 or more cubes is never changed |
| Infection.OutbreakSettles | PandemicApp.py:275-283 | the same for an outbreak |
| Infection.SpreadSettles | PandemicApp.py:279-283 | the same for the loop over connections |
| Infection.InfectCases | PandemicApp.py:264-273 | below 3 cubes, `cubes[color]` and `total_cubes` rise by exactly n, the pool of that colour falls by n, and no other colour, city or outbreak changes; otherwise the city is unchanged and outbreaks |
| Infection.InfectOutbreaksSaturated | PandemicApp.py:264-273 | every city a cascade records holds 3 or more cubes when the cascade ends |
| Infection.OutbreakOutbreaksSaturated | PandemicApp.py:275-283 | every city an outbreak sets off holds 3 or more cubes at the end |
| Infection.SpreadOutbreaksSaturated | PandemicApp.py:279-283 | the same for the loop over connections |
| Infection.SpreadUnsaturated | PandemicApp.py:279-283 | spreading to distinct unsaturated cities gives each exactly one cube, charges the pool one cube each, and sets off no outbreak |
| Infection.OutbreakIntoNeighbours | PandemicApp.py:273-283 | a saturated city with unsaturated neighbours outbreaks once; each neighbour gets exactly one cube, the pool pays one per neighbour, and no other city changes |
| Infection.InfectionIsUnclamped | PandemicApp.py:264-266 | three cubes on a city holding two leave it at five |
| Infection.AddCubes | PandemicApp.py:265-266 | adding cubes of one colour leaves the other colours alone and keeps `total_cubes` counting the city's cubes |
| Infection.TreatAsWritten | PandemicApp.py:284-293 | as written: a cured colour drops to 0 and any other drops by one; the colour's cubes on the city plus in the pool are unchanged; other colours and their pool unchanged; `total_cubes` is not updated |
| Infection.Treat | PandemicApp.py:284-293 | a cured colour drops to 0 and any other drops by one; city plus pool unchanged; other colours unchanged; `total_cubes` keeps counting the city's cubes |
| Infection.TreatAt | PandemicApp.py:284-293 | treating a city keeps every colour's cubes in play and keeps the totals consistent |
| Infection.TreatSound | PandemicApp.py:284-293 | treatment keeps the cube invariant |
| Infection.TreatAsWrittenKeepsCityFull | PandemicApp.py:288-293 | as written, a city treated from 3 red cubes keeps total 3 with 2 cubes, and a blue cube then sets off an outbreak |
| Infection.TreatThenInfect | PandemicApp.py:284-293 | with the total lowered, the same city takes the blue cube without an outbreak |
| Setup.InfectByCard | PandemicApp.py:235-237 | a card naming no city changes nothing; a card naming a city infects the first city of that name with the card's colour and n cubes, as `Infection.Infect` says |
| Setup.InfectCity | PandemicApp.py:228-237 | `infect_city` succeeds exactly when the infection deck holds two cards, and then takes the top two off the deck and discards the upper one; the board becomes that of infecting by the second card from the top; on IndexError no city changes |
| Setup.InfectCityPlaces | PandemicApp.py:228-237 | with distinct city names, the city the drawn card names gets n cubes of its colour and the pool loses n when it held fewer than 3 cubes, with no other city, colour or outbreak changed; otherwise it is left as it was and recorded as an outbreak |
| Setup.Repeat | PandemicApp.py:72-77 | `count` copies of the amount |
| Setup.Seed | PandemicApp.py:72-77 | the infections keep one city per graph entry; an error they raise is IndexError, and it ends the sequence |
| Setup.SetupAmountsAreLoops | PandemicApp.py:72-77 | the three loops infect with 3, 3, 3, 2, 2, 2, 1, 1, 1 cubes |
| Setup.SeedConcat | PandemicApp.py:72-77 | running two loops in turn is running their amounts concatenated; an exception ends both |
| Setup.DealRounds | PandemicApp.py:65 | 6 minus the number of players, and no round from six players on |
| Setup.SeedSucceeds | PandemicApp.py:72-77 | the infections succeed exactly when the deck holds two cards per infection |
| Setup.SeedDeck | PandemicApp.py:72-77 | successful infections remove the top two cards per infection from the deck |
| Setup.SeedDiscards | PandemicApp.py:72-77 | successful infections add one discard per infection, keeping the old discards below |
| Setup.SeedConserves | PandemicApp.py:72-77 | the infections keep each colour's cubes in play and the totals consistent |
| Setup.DrawnAmountsTotal | PandemicApp.py:72-77 | over the four colours, the cubes placed per colour add up to all the amounts |
| Setup.SeedTrace | PandemicApp.py:72-77 | when each card drawn names a distinct city holding fewer than 3 cubes, the infections pass through a run of steps, each of which raises nothing, adds no outbreak, takes two cards, places the amount on the city drawn, paid from its colour's pool, and changes nothing else |
| Setup.RunKeeps | PandemicApp.py:72-77 | such a run raises nothing, adds no outbreak and leaves every city it does not draw as it was |
| Setup.RunPlaces | PandemicApp.py:72-77 | in such a run the city of the i-th card drawn gains the i-th amount in that card's colour, counted in its total, and no other colour |
| Setup.RunPool | PandemicApp.py:72-77 | in such a run each colour's pool pays exactly the cubes placed in that colour |
| Setup.SeedPlaces | PandemicApp.py:72-77 | the infections, on distinct undersaturated cities named by the cards drawn, raise nothing, set off no outbreak, give the city of the i-th card the i-th amount of that card's colour and nothing else, leave every other city as it was, and take from each colour's pool exactly the cubes placed in it |
| Setup.SetupAmountsTotal | PandemicApp.py:72-77 | the three loops place 18 cubes in all |
| Setup.SetupCities | PandemicApp.py:88-90 | on an empty board, the nine cities drawn hold 3, 3, 3, 2, 2, 2, 1, 1, 1 cubes, all of the drawn card's colour, and every other city holds none |
| Setup.SetupPool | PandemicApp.py:88-90 | a full pool that paid for the setup amounts holds 18 cubes fewer |
| Setup.SetupPlaces | PandemicApp.py:72-90 | on a new board, when the nine cards drawn name nine distinct cities, the first three cities get 3 cubes of their card's colour, the next three 2 and the last three 1; no other city gets a cube, nothing outbreaks, and 18 cubes leave the pool |
| Setup.SetupUsesEighteenCards | PandemicApp.py:72-77 | setup needs 18 infection cards; it consumes the top 18 and discards 9 |
| Pandemic.City.constructor | PandemicApp.py:241-253 | a new city with its name and connections, no cubes and total 0 |
| Pandemic.City.InfectSelf | PandemicApp.py:260-273 | the game's cube state becomes `Infection.Infect` of the old state; the cube invariant is kept |
| Pandemic.City.Place | PandemicApp.py:264-267 | the city's table gains n cubes of the colour; the pool loses n; the invariant is kept |
| Pandemic.City.Outbreak | PandemicApp.py:275-283 | the game's cube state becomes `Infection.Outbreak` of the old state; the invariant is kept |
| Pandemic.City.TreatSelf | PandemicApp.py:284-293 | the city and the pool become `Infection.Treat` of their old values (the corrected treatment); the invariant is kept |
| Pandemic.NewCities | PandemicApp.py:56-57 | one fresh, distinct, empty city object per entry of the city list, named and connected as listed |
| Pandemic.PlayerHand.constructor | PandemicApp.py:320-322 | a new hand is empty |
| Pandemic.PlayerHand.AddCard | PandemicApp.py:533-537 | `add_card` appends the card to the hand |
| Pandemic.PlayerHand.RemoveCard | PandemicApp.py:527-531 | `remove_card` is `Decks.Remove` on the hand; on ValueError the hand is unchanged |
| Pandemic.PlayerHand.Discard | PandemicApp.py:324-326 | the card leaves the hand and is appended to `PlayerDeck_Discards`, or ValueError with nothing changed; hand plus discards is conserved |
| Pandemic.Player.constructor | PandemicApp.py:296-301 | a new player has its role, an empty fresh hand and is in Atlanta |
| Pandemic.NewPlayers | PandemicApp.py:48-50 | one player per role, in order, each in Atlanta with an empty hand, no two sharing a hand |
| Pandemic.AppendAll | PandemicApp.py:162-163 | appending a chunk card by card gives the list followed by the chunk |
| Pandemic.EpidemicDeck | PandemicApp.py:158-165 | the new deck is the concatenation, in chunk order, of pieces each a permutation of its slice plus that chunk's epidemic card; it holds the old cards plus epidemic cards 1 to ceil(N / s) and is N + ceil(N / s) cards long |
| Pandemic.PlayerDeck.constructor | PandemicApp.py:123-126 | the deck holds the cards given |
| Pandemic.PlayerDeck.Shuffle | PandemicApp.py:132-136 | the deck becomes a permutation of itself |
| Pandemic.PlayerDeck.Draw | PandemicApp.py:138-145 | `draw` is `Decks.Pop` on the deck; the deck loses exactly the returned card |
| Pandemic.PlayerDeck.AddPandemicCards | PandemicApp.py:152-165 | with a positive step, the deck becomes the epidemic layout of its old cards, holding them plus one epidemic card per chunk; with E = 0, ZeroDivisionError; with step 0, ValueError; with a negative step, an empty deck; error and deck are those `Decks.AddEpidemicsError` and `Decks.EpidemicsAdded` describe |
| Pandemic.InfectionDeck.constructor | PandemicApp.py:203-206 | the deck holds the cards given |
| Pandemic.InfectionDeck.Shuffle | PandemicApp.py:211-215 | the deck becomes a permutation of itself |
| Pandemic.InfectionDeck.Draw | PandemicApp.py:217-226 | the deck, the discards and the result are those of `Decks.DrawTwice` |
| Pandemic.InfectionDeck.InfectCity | PandemicApp.py:228-237 | deck, discards, cube state and error are those of `Setup.InfectCity`; the invariant is kept |
| Pandemic.ShareKnowledge | PandemicApp.py:418-435 | between two hands, the outcome is `Actions.ShareKnowledge` of the two players; a player sharing with itself keeps its hand when refused, and otherwise gets the card moved to the end or a ValueError |
| Pandemic.Turn.constructor | PandemicApp.py:175-179 | a turn starts with no outbreak recorded and 4 actions |
| Pandemic.Turn.PlayerAction | PandemicApp.py:185-195 | an action is performed exactly when budget is left and it is 'Move'; the budget drops by exactly the actions performed |
| Pandemic.Turn.Infect | PandemicApp.py:169-178 | an infection during the turn records its outbreaks in `current_outbreaks`, as `Infection.Infect` says; the invariant is kept |
| Pandemic.Game.constructor | PandemicApp.py:15-57 | one player per role in Atlanta with an empty hand; the two decks as given; one empty city per graph entry, no city object twice; 24 cubes per colour; no discards, no cure, no pull, and `draw_states[0]` = 2 cards to draw; the decks, cities and hands are fresh objects, so the caller may go on to shuffle, deal and infect |
| Pandemic.Game.NewGameValid | PandemicApp.py:15-57 | the state the constructor leaves (empty cities, full pool) satisfies the cube invariant every cube-changing method keeps |
| Pandemic.Game.Deal | PandemicApp.py:65-67 | the deal succeeds exactly when the deck holds `rounds * players` cards; the deck then loses that prefix and player i gets cards i, i + p, i + 2p, and so on; otherwise IndexError |
| Pandemic.Game.DealRound | PandemicApp.py:66-67 | one round gives each player the next card in turn, or IndexError |
| Pandemic.Game.ServeInRound | PandemicApp.py:66-67 | one player's turn in a round: the next card goes to that player and no other hand changes, or IndexError when the deck is empty |
| Pandemic.Game.DealCard | PandemicApp.py:67 | `draw(0)` into a hand: first card moved to the hand, or IndexError on an empty deck; deck plus hand is conserved |
| Pandemic.Game.SeedCities | PandemicApp.py:72-77 | the nine infections leave the state given by `Setup.Seed` with 3, 3, 3, 2, 2, 2, 1, 1, 1; the invariant is kept |
| Pandemic.Game.InfectTimes | PandemicApp.py:72-77 | one loop of `count` infections leaves the state given by `Setup.Seed`; the invariant is kept |
| Pandemic.Game.PreparePlayerDeck | PandemicApp.py:64-69 | a deal with too few cards raises IndexError; otherwise each hand gets its dealt cards, and the rest of the deck gets the epidemic cards as `Decks.EpidemicsAdded` says, raising what `Decks.AddEpidemicsError` says (ZeroDivisionError for E = 0, ValueError for step 0) |
| Pandemic.Game.SetItems | PandemicApp.py:59-77 | after the shuffles, the outcome `Pandemic.Game.DealAndInfect` states for the shuffled decks; the invariant is kept |
| Pandemic.Game.DealAndInfect | PandemicApp.py:64-77 | a failed deal raises IndexError and leaves the board untouched; a successful deal gives each hand its dealt cards and the rest of the deck its epidemic cards; when that raises (E = 0, step 0) the board is untouched; otherwise (a positive step, or a negative one that empties the deck) the infections are those of `Setup.Seed`; the invariant is kept |
| Pandemic.Game.Spread | PandemicApp.py:279-283 | the loop over connections gives the state `Infection.SpreadTo` computes; the invariant is kept |
| Pandemic.Game.InfectNeighbour | PandemicApp.py:280-283 | one turn of that loop: the rest of the loop from the new state equals the whole loop from the old one |
| Pandemic.Game.Lookup | PandemicApp.py:280-282 | the scan over the cities finds what `Infection.Find` finds |

## Left out

- Randomness: `random.shuffle` is a function parameter, and the model only
  assumes it returns a permutation. `sample` of the roles is replaced by a
  list of roles given to the constructor.
- The city and card lists of `PandemicGameData` are inputs: the city graph
  and the two card lists.
- All `print` output, and the `input()` of `DiscardCard`.
- `GameState`, `AiPlayer`, `Move`, `DirectFlight`, `Treat`, `BuildResearch`,
  `PlayEventCard`, `DiscardCard`, `SpecialAction`, `MoveReceiver`,
  `GeneralActionReceiver` and `ActionInvoker` are not part of this model.
  They are unfinished or refer to undefined names. A flight's result is the
  moved player directly, not a call of `move_player`.
- The commands read `player_cards` and `player_location`, which `Player`
  does not have. The model reads a value describing the player instead: a
  role, a place with a research-station flag, and the hand (`PlayerView`).
  - `CharterFlight`'s `player_cards.keys()` becomes "the hand holds the
    target's city card".
  - `DiscoverCure`'s `list(player_cards['Type']) >= 4` becomes "the hand holds
    four cards of the colour".
  - The card-type loop of `DiscoverCure` becomes "remove the first card of
    the colour".
- `outbreak` compares dict keys' `.name` and calls `infect_self(color)`
  without a cube count. The model finds the city by its key and places one
  cube, as evidently intended.
- `outbreak` has no cycle guard. The model threads the outbreak list the
  `Turn` docstring describes; the nine infections of `set_items` share one
  list, started empty.
- `player_action` calls `Move` with `self.target_city` and decrements the
  misspelled attribute `player_action`. The model decrements
  `player_actions`, and covers only the budget, not `Move.execute`.
- Games with AI players: `number_of_AI` also sizes `PlayerRoles`
  (PandemicApp.py:27) and adds `AiPlayer`s after the players
  (PandemicApp.py:51-54), who are then dealt cards like the others
  (PandemicApp.py:65). The model covers games with `number_of_AI == 0`;
  `AiPlayer` is not part of this model.
- Pandemic.Game.constructor, Pandemic.NewCities: city names are required to
  be distinct (`Infection.DistinctNames`). The source stores cities in a dict
  keyed by name (PandemicApp.py:56-57), where a repeated name would silently
  overwrite the earlier city; the model does not capture that overwrite.
- The game's unused fields are not modelled: `EradicatedDiseases`,
  `PlayerDeck.discards`, `deck_name`, a city's `city_id`, `color` and
  `research_station`, and the `game` back-references. Research stations are
  a set of city names passed to `Pandemic.ShareKnowledge`.
- Pandemic.Game.SetItems: the card-conservation of the whole deal (deck plus
  all hands) is not stated as one lemma. It follows from the per-card
  ensures of `Pandemic.Game.DealCard` and `Pandemic.PlayerDeck.Draw`. The
  model only states the hands' contents and the remaining deck.
- Pandemic.ShareKnowledge, Actions.CardsNeeded, Actions.DiscoverCure: roles
  are compared as values. The source compares the `PlayerRole` object a
  player holds (PandemicApp.py:300) with the strings 'Researcher' and
  'Scientist' (PandemicApp.py:448), a comparison that is never true as
  written; the model compares the role itself, as evidently intended.
- Decks.RoundDiv: `round(len(deck)/E)` (PandemicApp.py:149) rounds a
  floating-point quotient, while the model rounds the exact rational one.
  The two agree for integers of the size of a deck, where the division is
  exact to the half.
- Pandemic.PlayerDeck.constructor, Pandemic.InfectionDeck.constructor: the
  source decks keep the list they are given (PandemicApp.py:125, 205), the
  module-level `playerCards` and `infectionCards` (PandemicApp.py:46-47), so
  shuffles, draws and pops mutate that shared data. The model's decks hold a
  copied value, and the aliasing is not captured.
- Pandemic.City.TreatSelf: models the corrected treatment; the as-written one
  is `Infection.TreatAsWritten` (see Findings).
- Python's integers and the pool are unbounded here, as in the source: the
  pool may go negative and nothing checks it.

## Findings

| source | as written | input that shows it | evidently intended | confidence | as-written member | corrected member |
|---|---|---|---|---|---|---|
| PandemicApp.py:288-293 | `treat_self` lowers `cubes[color]` but never `total_cubes` | a city with 3 red cubes and total 3, treated for red (not cured): it holds 2 cubes but keeps total 3, so a blue cube then sets off an outbreak | `total_cubes` goes down by the cubes removed, so that it keeps counting the city's cubes | not executed | Infection.TreatAsWritten (its consequence: Infection.TreatAsWrittenKeepsCityFull) | Infection.Treat, with Infection.TreatSound (and Infection.TreatThenInfect on the same input) |
