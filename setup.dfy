/** The infection phase of `Game.set_items` as a function: nine calls of
    `InfectionDeck.infect_city`, each a two-pop draw followed by the infection
    of the city the drawn card names. */
module Setup {
  import opened Errors
  import opened Cards
  import opened Infection
  import Decks

  /** The cube state and the two infection piles during the infection phase,
      and the exception that stopped it, if any. */
  datatype Seeding = Seeding(
    board: BoardState, deck: seq<InfectionCard>, discards: seq<InfectionCard>, error: Option<PyError>)

  /** The loop of `infect_city` over `gameCities`: the city whose key is the
      card's city gets `infect_self(card[2], n)`; no city when none is. */
  function InfectByCard(g: seq<CityInfo>, s: BoardState, card: InfectionCard, n: int): (r: BoardState)
    requires |s.cities| == |g|
    ensures |r.cities| == |g|
    ensures card.city !in Names(g) ==> r == s
    ensures Find(g, card.city).Some? ==> r == Infect(g, s, Find(g, card.city).value, card.color, n)
  {
    match Find(g, card.city)
    case None => s
    case Some(k) => Infect(g, s, k, card.color, n)
  }

  /** `infect_city(n)`: the draw, then the infection. When the draw raises,
      the first popped card has still been discarded and no city changes. */
  function InfectCity(g: seq<CityInfo>, t: Seeding, n: int): (r: Seeding)
    requires |t.board.cities| == |g|
    ensures |r.board.cities| == |g|
    ensures r.error.None? <==> |t.deck| >= 2
    ensures r.error.Some? ==> r.board == t.board && r.error == Some(IndexError)
    ensures r.error.None? ==>
              r.deck == t.deck[..|t.deck| - 2] && r.discards == t.discards + [t.deck[|t.deck| - 1]]
    ensures |t.deck| >= 2 ==> r.board == InfectByCard(g, t.board, t.deck[|t.deck| - 2], n)
  {
    var d := Decks.DrawTwice(t.deck, t.discards, None);
    Decks.DrawTwiceTop(t.deck, t.discards);
    match d.drawn
    case Err(e) => Seeding(t.board, d.deck, d.discards, Some(e))
    case Ok(card) => Seeding(InfectByCard(g, t.board, card, n), d.deck, d.discards, None)
  }

  /** Where `infect_city(n)` puts its cubes: the card under the top one names
      city `k`; a city holding fewer than 3 cubes gets `n` cubes of the card's
      colour from the pool, and no other city and no other colour changes;
      a city holding 3 or more is left as it is and outbreaks. */
  lemma InfectCityPlaces(g: seq<CityInfo>, t: Seeding, n: int, k: nat)
    requires |t.board.cities| == |g| && DistinctNames(g) && n >= 0
    requires |t.deck| >= 2 && k < |g| && t.deck[|t.deck| - 2].city == g[k].name
    ensures var r, card := InfectCity(g, t, n), t.deck[|t.deck| - 2];
            var before, after := t.board, InfectCity(g, t, n).board;
            && r.error.None?
            && if before.cities[k].total < 3 then
                 && after.cities[k].cubes.Get(card.color) == before.cities[k].cubes.Get(card.color) + n
                 && after.cities[k].total == before.cities[k].total + n
                 && after.pool.Get(card.color) == before.pool.Get(card.color) - n
                 && (forall c: Color :: c != card.color ==>
                       after.cities[k].cubes.Get(c) == before.cities[k].cubes.Get(c)
                       && after.pool.Get(c) == before.pool.Get(c))
                 && (forall j :: 0 <= j < |g| && j != k ==> after.cities[j] == before.cities[j])
                 && after.outbreaks == before.outbreaks
               else
                 after.cities[k] == before.cities[k] && g[k].name in after.outbreaks
  {
    var card := t.deck[|t.deck| - 2];
    FindOwnName(g, k);
    assert Find(g, card.city) == Some(k);
    InfectCases(g, t.board, k, card.color, n);
  }

  /** `infect_city` called once per amount, in order; a raised exception
      ends the sequence. */
  function Seed(g: seq<CityInfo>, t: Seeding, amounts: seq<int>): (r: Seeding)
    requires |t.board.cities| == |g|
    ensures |r.board.cities| == |g|
    ensures t.error.None? && r.error.Some? ==> r.error == Some(IndexError)
    decreases |amounts|
  {
    if |amounts| == 0 || t.error.Some? then t
    else Seed(g, InfectCity(g, t, amounts[0]), amounts[1..])
  }

  /** Three cities get 3 cubes, three get 2, three get 1. */
  const SetupAmounts: seq<int> := [3, 3, 3, 2, 2, 2, 1, 1, 1]

  /** `count` calls of `infect_city(n)`, the amounts of one
      `for i in range(count)` loop. */
  function Repeat(n: int, count: nat): (r: seq<int>)
    ensures |r| == count && forall k :: 0 <= k < count ==> r[k] == n
  {
    if count == 0 then [] else [n] + Repeat(n, count - 1)
  }

  /** The three loops of `set_items` are the nine amounts in order. */
  lemma SetupAmountsAreLoops()
    ensures SetupAmounts == Repeat(3, 3) + Repeat(2, 3) + Repeat(1, 3)
  {
    assert Repeat(1, 3) == [1, 1, 1];
    assert Repeat(2, 3) == [2, 2, 2];
    assert Repeat(3, 3) == [3, 3, 3];
  }

  /** Infecting by `a` and then by `b` is infecting by `a + b`: an exception
      raised during `a` ends both. */
  lemma {:induction false} SeedConcat(g: seq<CityInfo>, t: Seeding, a: seq<int>, b: seq<int>)
    requires |t.board.cities| == |g|
    ensures Seed(g, t, a + b) == Seed(g, Seed(g, t, a), b)
    decreases |a|
  {
    if |a| == 0 {
      assert a + b == b;
    } else if t.error.None? {
      assert (a + b)[1..] == a[1..] + b;
      SeedConcat(g, InfectCity(g, t, a[0]), a[1..], b);
    }
  }

  /** One pass of a `for i in range(count)` loop that raises nothing leaves
      the other `count - 1` passes. */
  lemma SeedRepeat(g: seq<CityInfo>, t: Seeding, n: int, count: nat)
    requires |t.board.cities| == |g| && count > 0 && t.error.None?
    ensures Seed(g, t, Repeat(n, count)) == Seed(g, InfectCity(g, t, n), Repeat(n, count - 1))
  {
    assert Repeat(n, count)[1..] == Repeat(n, count - 1);
  }

  /** The rounds of the deal, `range(6 - len(Players))`: six cards in all
      minus one per player, and none at all from six players on. */
  function DealRounds(players: nat): (r: nat)
    ensures players < 6 ==> r + players == 6
    ensures players >= 6 ==> r == 0
  {
    if players < 6 then 6 - players else 0
  }

  /** A sequence of infections succeeds exactly when the deck holds two
      cards per infection. */
  lemma {:induction false} SeedSucceeds(g: seq<CityInfo>, t: Seeding, amounts: seq<int>)
    requires |t.board.cities| == |g| && t.error.None?
    ensures Seed(g, t, amounts).error.None? <==> |t.deck| >= 2 * |amounts|
    decreases |amounts|
  {
    if |amounts| > 0 {
      var t1 := InfectCity(g, t, amounts[0]);
      assert Seed(g, t, amounts) == Seed(g, t1, amounts[1..]);
      if t1.error.None? {
        SeedSucceeds(g, t1, amounts[1..]);
      } else {
        assert Seed(g, t1, amounts[1..]) == t1;
      }
    }
  }

  /** A successful sequence of infections leaves the deck without its top
      two cards per infection. */
  lemma {:induction false} SeedDeck(g: seq<CityInfo>, t: Seeding, amounts: seq<int>)
    requires |t.board.cities| == |g| && t.error.None? && Seed(g, t, amounts).error.None?
    ensures 2 * |amounts| <= |t.deck| && Seed(g, t, amounts).deck == t.deck[..|t.deck| - 2 * |amounts|]
    decreases |amounts|
  {
    SeedSucceeds(g, t, amounts);
    if |amounts| > 0 {
      var t1 := InfectCity(g, t, amounts[0]);
      assert Seed(g, t, amounts) == Seed(g, t1, amounts[1..]);
      SeedDeck(g, t1, amounts[1..]);
      Decks.PrefixOfPrefix(t.deck, |t.deck| - 2, |t.deck| - 2 * |amounts|);
    }
  }

  /** A successful sequence of infections puts one discard per infection on
      top of the old discards. */
  lemma {:induction false} SeedDiscards(g: seq<CityInfo>, t: Seeding, amounts: seq<int>)
    requires |t.board.cities| == |g| && t.error.None? && Seed(g, t, amounts).error.None?
    ensures var r := Seed(g, t, amounts);
            |r.discards| == |t.discards| + |amounts| && r.discards[..|t.discards|] == t.discards
    decreases |amounts|
  {
    SeedSucceeds(g, t, amounts);
    if |amounts| > 0 {
      var t1 := InfectCity(g, t, amounts[0]);
      assert Seed(g, t, amounts) == Seed(g, t1, amounts[1..]);
      SeedDiscards(g, t1, amounts[1..]);
      Decks.PrefixOfPrefix(Seed(g, t1, amounts[1..]).discards, |t1.discards|, |t.discards|);
    }
  }

  /** The infection phase keeps every colour's cubes on the board plus in
      the pool, and keeps each city's `total_cubes` equal to its cubes. */
  lemma {:induction false} SeedConserves(g: seq<CityInfo>, t: Seeding, amounts: seq<int>)
    requires |t.board.cities| == |g|
    ensures forall c: Color :: InPlay(Seed(g, t, amounts).board, c) == InPlay(t.board, c)
    ensures Consistent(t.board) ==> Consistent(Seed(g, t, amounts).board)
    decreases |amounts|
  {
    if |amounts| > 0 && t.error.None? {
      var t1 := InfectCity(g, t, amounts[0]);
      var d := Decks.DrawTwice(t.deck, t.discards, None);
      if d.drawn.Ok? {
        match Find(g, d.drawn.value.city)
        case None =>
        case Some(k) => InfectConserves(g, t.board, k, d.drawn.value.color, amounts[0]);
      }
      SeedConserves(g, t1, amounts[1..]);
    }
  }

  /** `set_items` infects nine cities: it needs eighteen infection cards,
      consumes the top eighteen and discards nine of them. */
  lemma SetupUsesEighteenCards(g: seq<CityInfo>, t: Seeding)
    requires |t.board.cities| == |g| && t.error.None?
    ensures var r := Seed(g, t, SetupAmounts);
            && (r.error.None? <==> |t.deck| >= 18)
            && (r.error.None? ==> r.deck == t.deck[..|t.deck| - 18] && |r.discards| == |t.discards| + 9)
  {
    SeedSucceeds(g, t, SetupAmounts);
    if Seed(g, t, SetupAmounts).error.None? {
      SeedDeck(g, t, SetupAmounts);
      SeedDiscards(g, t, SetupAmounts);
    }
  }

  // ---------------------------------------------------------------------
  // Where the setup infections put their cubes
  // ---------------------------------------------------------------------

  /** The card the `i`-th of a run of infections infects by: each draw pops
      the top two cards and infects by the lower one. */
  function DrawnBy(deck: seq<InfectionCard>, i: nat): InfectionCard
    requires 2 * i + 2 <= |deck|
  {
    deck[|deck| - 2 - 2 * i]
  }

  /** After one draw the deck has lost its top two cards, so the card the
      next infection draws is the one the second draw from the old deck
      would take. */
  lemma DrawnByShift(deck: seq<InfectionCard>, i: nat)
    requires 2 * i + 4 <= |deck|
    ensures DrawnBy(deck[..|deck| - 2], i) == DrawnBy(deck, i + 1)
  {
  }

  /** The sum of a list of amounts. */
  function Total(amounts: seq<int>): int
    decreases |amounts|
  {
    if |amounts| == 0 then 0 else amounts[0] + Total(amounts[1..])
  }

  /** The cubes of colour `c` that a run of infections places when each one
      places its whole amount: the amounts whose drawn card has colour `c`. */
  function DrawnAmount(deck: seq<InfectionCard>, amounts: seq<int>, c: Color): int
    requires 2 * |amounts| <= |deck|
    decreases |amounts|
  {
    if |amounts| == 0 then 0
    else (if DrawnBy(deck, 0).color == c then amounts[0] else 0) + DrawnAmount(deck[..|deck| - 2], amounts[1..], c)
  }

  /** Over the four colours, the drawn amounts add up to all the amounts. */
  lemma {:induction false} DrawnAmountsTotal(deck: seq<InfectionCard>, amounts: seq<int>)
    requires 2 * |amounts| <= |deck|
    ensures DrawnAmount(deck, amounts, Red) + DrawnAmount(deck, amounts, Blue)
            + DrawnAmount(deck, amounts, Yellow) + DrawnAmount(deck, amounts, Black) == Total(amounts)
    decreases |amounts|
  {
    if |amounts| > 0 {
      DrawnAmountsTotal(deck[..|deck| - 2], amounts[1..]);
    }
  }

  /** A run of infections in which the `i`-th card drawn names city `ks[i]`,
      the cities are distinct and each holds fewer than 3 cubes, and no
      amount is negative; city names are distinct, as dict keys are. */
  ghost predicate Placeable(g: seq<CityInfo>, t: Seeding, amounts: seq<int>, ks: seq<nat>) {
    && |t.board.cities| == |g| && DistinctNames(g) && t.error.None?
    && |ks| == |amounts| && 2 * |amounts| <= |t.deck|
    && (forall i :: 0 <= i < |ks| ==>
          && amounts[i] >= 0 && ks[i] < |g|
          && DrawnBy(t.deck, i).city == g[ks[i]].name
          && t.board.cities[ks[i]].total < 3)
    && (forall i, j :: 0 <= i < j < |ks| ==> ks[i] != ks[j])
  }

  /** City `after` is city `before` with `n` more cubes of `color`, counted
      in its total, and no other colour changed. */
  predicate Gained(before: CityCubes, after: CityCubes, color: Color, n: int) {
    && after.cubes.Get(color) == before.cubes.Get(color) + n
    && after.total == before.total + n
    && forall c: Color :: c != color ==> after.cubes.Get(c) == before.cubes.Get(c)
  }

  /** One infection of a run, from state `s` to state `s1`: it raises
      nothing and sets off no outbreak, takes the top two cards off the
      deck, gives city `k` `n` cubes of the drawn card's colour, paid from
      the pool, and changes no other city and no other colour of the pool. */
  ghost predicate Stepped(s: Seeding, s1: Seeding, n: int, k: nat) {
    && |s.deck| >= 2 && k < |s.board.cities| && |s1.board.cities| == |s.board.cities|
    && s1.error.None? && s1.board.outbreaks == s.board.outbreaks
    && s1.deck == s.deck[..|s.deck| - 2]
    && Gained(s.board.cities[k], s1.board.cities[k], DrawnBy(s.deck, 0).color, n)
    && (forall j :: 0 <= j < |s.board.cities| && j != k ==> s1.board.cities[j] == s.board.cities[j])
    && (forall c: Color ::
          s1.board.pool.Get(c) == s.board.pool.Get(c) - if DrawnBy(s.deck, 0).color == c then n else 0)
  }

  /** The states `ts` a run of such infections passes through, one step per
      amount, on distinct cities. */
  ghost predicate Run(ts: seq<Seeding>, amounts: seq<int>, ks: seq<nat>) {
    && |ts| == |amounts| + 1 && |ks| == |amounts|
    && ts[0].error.None? && 2 * |amounts| <= |ts[0].deck|
    && (forall i :: 0 <= i < |ts| ==> |ts[i].board.cities| == |ts[0].board.cities|)
    && (forall i :: 0 <= i < |ks| ==> ks[i] < |ts[0].board.cities|)
    && (forall i, j :: 0 <= i < j < |ks| ==> ks[i] != ks[j])
    && (forall i :: 0 <= i < |amounts| ==> Stepped(ts[i], ts[i + 1], amounts[i], ks[i]))
  }

  /** A run is its first step followed by a run. */
  lemma RunTail(ts: seq<Seeding>, amounts: seq<int>, ks: seq<nat>)
    requires Run(ts, amounts, ks) && |amounts| > 0
    ensures Stepped(ts[0], ts[1], amounts[0], ks[0]) && ks[0] !in ks[1..]
    ensures Run(ts[1..], amounts[1..], ks[1..])
  {
    assert Stepped(ts[0], ts[1], amounts[0], ks[0]);
    forall i | 0 <= i < |amounts[1..]|
      ensures Stepped(ts[1..][i], ts[1..][i + 1], amounts[1..][i], ks[1..][i])
    {
      assert Stepped(ts[i + 1], ts[i + 2], amounts[i + 1], ks[i + 1]);
    }
    forall i, j | 0 <= i < j < |ks[1..]| ensures ks[1..][i] != ks[1..][j] {
      assert ks[i + 1] != ks[j + 1];
    }
    forall i | 0 <= i < |ks[1..]| ensures ks[1..][i] != ks[0] {
      assert ks[0] != ks[i + 1];
    }
  }

  /** A first step on a city not used again, followed by a run, is a run. */
  lemma RunCons(t: Seeding, ts: seq<Seeding>, amounts: seq<int>, ks: seq<nat>)
    requires |amounts| > 0 && |ks| == |amounts| && t.error.None? && 2 * |amounts| <= |t.deck|
    requires forall i :: 0 <= i < |ks| ==> ks[i] < |t.board.cities|
    requires forall i, j :: 0 <= i < j < |ks| ==> ks[i] != ks[j]
    requires Run(ts, amounts[1..], ks[1..]) && Stepped(t, ts[0], amounts[0], ks[0])
    ensures Run([t] + ts, amounts, ks)
  {
    var us := [t] + ts;
    forall i | 0 <= i < |amounts| ensures Stepped(us[i], us[i + 1], amounts[i], ks[i]) {
      if i > 0 {
        assert us[i] == ts[i - 1] && us[i + 1] == ts[i];
        assert Stepped(ts[i - 1], ts[i], amounts[1..][i - 1], ks[1..][i - 1]);
      }
    }
    forall i | 0 <= i < |us| ensures |us[i].board.cities| == |t.board.cities| {
      if i > 0 {
        assert us[i] == ts[i - 1];
      }
    }
  }

  /** The first infection of a placeable run makes the first step of a
      run, from which the rest of the infections go on. */
  lemma FirstStep(g: seq<CityInfo>, t: Seeding, amounts: seq<int>, ks: seq<nat>) returns (t1: Seeding)
    requires Placeable(g, t, amounts, ks) && |amounts| > 0
    ensures Stepped(t, t1, amounts[0], ks[0])
    ensures Seed(g, t, amounts) == Seed(g, t1, amounts[1..])
  {
    t1 := InfectCity(g, t, amounts[0]);
    InfectCityPlaces(g, t, amounts[0], ks[0]);
  }

  /** The rest of a placeable run, after its first step, is placeable. */
  lemma RestPlaceable(g: seq<CityInfo>, t: Seeding, t1: Seeding, amounts: seq<int>, ks: seq<nat>)
    requires Placeable(g, t, amounts, ks) && |amounts| > 0
    requires Stepped(t, t1, amounts[0], ks[0])
    ensures Placeable(g, t1, amounts[1..], ks[1..])
  {
    forall i | 0 <= i < |ks[1..]|
      ensures DrawnBy(t1.deck, i) == DrawnBy(t.deck, i + 1)
      ensures t1.board.cities[ks[1..][i]] == t.board.cities[ks[i + 1]]
    {
      DrawnByShift(t.deck, i);
      assert ks[1..][i] == ks[i + 1] != ks[0];
    }
  }

  /** The infections of a placeable run pass through the states of a run,
      from `t` to `Seed(g, t, amounts)`. */
  lemma {:induction false} SeedTrace(g: seq<CityInfo>, t: Seeding, amounts: seq<int>, ks: seq<nat>)
    returns (ts: seq<Seeding>)
    requires Placeable(g, t, amounts, ks)
    ensures Run(ts, amounts, ks) && ts[0] == t && ts[|amounts|] == Seed(g, t, amounts)
    decreases |amounts|
  {
    if |amounts| == 0 {
      ts := [t];
    } else {
      var t1 := FirstStep(g, t, amounts, ks);
      RestPlaceable(g, t, t1, amounts, ks);
      var rest := SeedTrace(g, t1, amounts[1..], ks[1..]);
      RunCons(t, rest, amounts, ks);
      ts := [t] + rest;
    }
  }

  /** A run raises nothing, sets off no outbreak and leaves every city it
      does not name as it was. */
  lemma {:induction false} RunKeeps(ts: seq<Seeding>, amounts: seq<int>, ks: seq<nat>)
    requires Run(ts, amounts, ks)
    ensures var r := ts[|amounts|];
            && r.error.None? && r.board.outbreaks == ts[0].board.outbreaks
            && forall j :: 0 <= j < |ts[0].board.cities| && j !in ks ==> r.board.cities[j] == ts[0].board.cities[j]
    decreases |amounts|
  {
    if |amounts| > 0 {
      RunTail(ts, amounts, ks);
      RunKeeps(ts[1..], amounts[1..], ks[1..]);
      assert ts[1..][|amounts[1..]|] == ts[|amounts|];
      forall j | 0 <= j < |ts[0].board.cities| && j !in ks
        ensures j != ks[0] && j !in ks[1..]
      {
        assert ks == [ks[0]] + ks[1..];
      }
    }
  }

  /** In a run, city `ks[i]` gets `amounts[i]` cubes of the colour of the
      `i`-th card drawn, and no cube of any other colour. */
  lemma {:induction false} RunPlaces(ts: seq<Seeding>, amounts: seq<int>, ks: seq<nat>)
    requires Run(ts, amounts, ks)
    ensures forall i :: 0 <= i < |ks| ==>
              Gained(ts[0].board.cities[ks[i]], ts[|amounts|].board.cities[ks[i]],
                     DrawnBy(ts[0].deck, i).color, amounts[i])
    decreases |amounts|
  {
    if |amounts| > 0 {
      RunTail(ts, amounts, ks);
      RunPlaces(ts[1..], amounts[1..], ks[1..]);
      RunKeeps(ts[1..], amounts[1..], ks[1..]);
      assert ts[1..][|amounts[1..]|] == ts[|amounts|];
      forall i | 0 < i < |ks|
        ensures ks[1..][i - 1] == ks[i] && amounts[1..][i - 1] == amounts[i]
        ensures ts[1].board.cities[ks[i]] == ts[0].board.cities[ks[i]]
        ensures DrawnBy(ts[1].deck, i - 1) == DrawnBy(ts[0].deck, i)
      {
        DrawnByShift(ts[0].deck, i - 1);
      }
    }
  }

  /** In a run, the pool of each colour pays the cubes placed of that
      colour. */
  lemma {:induction false} RunPool(ts: seq<Seeding>, amounts: seq<int>, ks: seq<nat>)
    requires Run(ts, amounts, ks)
    ensures forall c: Color ::
              ts[|amounts|].board.pool.Get(c) == ts[0].board.pool.Get(c) - DrawnAmount(ts[0].deck, amounts, c)
    decreases |amounts|
  {
    if |amounts| > 0 {
      RunTail(ts, amounts, ks);
      RunPool(ts[1..], amounts[1..], ks[1..]);
      assert ts[1..][|amounts[1..]|] == ts[|amounts|];
    }
  }

  /** Where a placeable run of infections puts its cubes: it raises nothing
      and sets off no outbreak; the city named by the `i`-th card drawn gets
      `amounts[i]` cubes of that card's colour and no other; every other
      city is left as it was; and the pool of each colour pays the cubes
      placed of that colour. */
  lemma SeedPlaces(g: seq<CityInfo>, t: Seeding, amounts: seq<int>, ks: seq<nat>)
    requires Placeable(g, t, amounts, ks)
    ensures var r := Seed(g, t, amounts);
            && r.error.None? && r.board.outbreaks == t.board.outbreaks
            && (forall i :: 0 <= i < |ks| ==>
                  Gained(t.board.cities[ks[i]], r.board.cities[ks[i]], DrawnBy(t.deck, i).color, amounts[i]))
            && (forall j :: 0 <= j < |g| && j !in ks ==> r.board.cities[j] == t.board.cities[j])
            && (forall c: Color :: r.board.pool.Get(c) == t.board.pool.Get(c) - DrawnAmount(t.deck, amounts, c))
  {
    var ts := SeedTrace(g, t, amounts, ks);
    RunKeeps(ts, amounts, ks);
    RunPlaces(ts, amounts, ks);
    RunPool(ts, amounts, ks);
  }

  /** The sum from position `k` is the amount there plus the sum after it. */
  lemma TotalFrom(amounts: seq<int>, k: nat)
    requires k < |amounts|
    ensures Total(amounts[k..]) == amounts[k] + Total(amounts[k + 1..])
  {
    assert amounts[k..][1..] == amounts[k + 1..];
  }

  /** The setup amounts place 18 cubes in all. */
  lemma SetupAmountsTotal()
    ensures Total(SetupAmounts) == 18
  {
    assert SetupAmounts[9..] == [];
    TotalFrom(SetupAmounts, 8);
    TotalFrom(SetupAmounts, 7);
    TotalFrom(SetupAmounts, 6);
    TotalFrom(SetupAmounts, 5);
    TotalFrom(SetupAmounts, 4);
    TotalFrom(SetupAmounts, 3);
    TotalFrom(SetupAmounts, 2);
    TotalFrom(SetupAmounts, 1);
    TotalFrom(SetupAmounts, 0);
    assert SetupAmounts[0..] == SetupAmounts;
  }

  /** The setup amounts on a new board: a board `r` that got the setup
      amounts on nine distinct cities of an empty board `t` holds 3, 3, 3,
      2, 2, 2, 1, 1, 1 cubes of the drawn colours on them and none
      elsewhere. */
  lemma SetupCities(t: BoardState, r: BoardState, deck: seq<InfectionCard>, ks: seq<nat>)
    requires |ks| == 9 && |deck| >= 18 && |r.cities| == |t.cities| && EmptyBoard(t.cities)
    requires forall i :: 0 <= i < 9 ==>
               ks[i] < |t.cities| && Gained(t.cities[ks[i]], r.cities[ks[i]], DrawnBy(deck, i).color, SetupAmounts[i])
    requires forall j :: 0 <= j < |t.cities| && j !in ks ==> r.cities[j] == t.cities[j]
    ensures forall i :: 0 <= i < 9 ==>
              && r.cities[ks[i]].total == (if i < 3 then 3 else if i < 6 then 2 else 1)
              && r.cities[ks[i]].cubes.Get(DrawnBy(deck, i).color) == r.cities[ks[i]].total
    ensures forall j :: 0 <= j < |r.cities| && j !in ks ==> r.cities[j] == CityCubes(NoCubes, 0)
  {
  }

  /** A full pool that paid, colour by colour, the cubes the setup amounts
      place holds 18 cubes fewer. */
  lemma SetupPool(t: BoardState, r: BoardState, deck: seq<InfectionCard>)
    requires |deck| >= 18 && t.pool == StartingPool
    requires forall c: Color :: r.pool.Get(c) == t.pool.Get(c) - DrawnAmount(deck, SetupAmounts, c)
    ensures r.pool.Sum() == StartingPool.Sum() - 18
  {
    DrawnAmountsTotal(deck, SetupAmounts);
    SetupAmountsTotal();
    assert r.pool.Get(Red) + r.pool.Get(Blue) + r.pool.Get(Yellow) + r.pool.Get(Black) == 96 - 18;
  }

  /** On a new board (no cube on any city, 24 of each colour in the pool),
      the nine setup infections of nine distinct cities put 3 cubes on each
      of the first three cities drawn, 2 on each of the next three and 1 on
      each of the last three, all of the drawn card's colour; no other city
      gets a cube, nothing outbreaks, and 18 cubes leave the pool. */
  lemma SetupPlaces(g: seq<CityInfo>, t: Seeding, ks: seq<nat>)
    requires |t.board.cities| == |g| && DistinctNames(g) && t.error.None? && |t.deck| >= 18
    requires EmptyBoard(t.board.cities) && t.board.pool == StartingPool
    requires |ks| == 9 && forall i :: 0 <= i < 9 ==> ks[i] < |g| && DrawnBy(t.deck, i).city == g[ks[i]].name
    requires forall i, j :: 0 <= i < j < 9 ==> ks[i] != ks[j]
    ensures var r := Seed(g, t, SetupAmounts);
            && r.error.None? && r.board.outbreaks == t.board.outbreaks
            && (forall i :: 0 <= i < 9 ==>
                  && r.board.cities[ks[i]].total == (if i < 3 then 3 else if i < 6 then 2 else 1)
                  && r.board.cities[ks[i]].cubes.Get(DrawnBy(t.deck, i).color) == r.board.cities[ks[i]].total)
            && (forall j :: 0 <= j < |g| && j !in ks ==> r.board.cities[j] == CityCubes(NoCubes, 0))
            && r.board.pool.Sum() == StartingPool.Sum() - 18
  {
    SeedPlaces(g, t, SetupAmounts, ks);
    var r := Seed(g, t, SetupAmounts);
    SetupCities(t.board, r.board, t.deck, ks);
    SetupPool(t.board, r.board, t.deck);
  }
}
