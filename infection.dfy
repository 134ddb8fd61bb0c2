/** Cube placement and the outbreak cascade of `City.infect_self` and
    `City.outbreak`, and the cube removal of `City.treat_self`, as functions of
    the board's cube state. The cascade threads the list of cities that have
    outbroken so far (the `current_outbreaks` list the `Turn` docstring
    describes); a city already on it does not outbreak again, which is what
    makes the cascade finite. */
module Infection {
  import opened Errors
  import opened Cards

  /** The fixed part of a city: its name (its key in `gameCities`) and the
      names of the cities it is connected to. */
  datatype CityInfo = CityInfo(name: string, connected: seq<string>)

  /** The part of a city that infection and treatment change: its `cubes`
      table and its `total_cubes` counter. */
  datatype CityCubes = CityCubes(cubes: Cubes, total: int)

  /** The cube state of every city (in `gameCities` order), the global
      `InfectionCubes` pool, and the cities that have outbroken so far in the
      current cascade, in order. */
  datatype BoardState = BoardState(cities: seq<CityCubes>, pool: Cubes, outbreaks: seq<string>)

  // ---------------------------------------------------------------------
  // City lookup
  // ---------------------------------------------------------------------

  function Names(g: seq<CityInfo>): set<string> {
    set i | 0 <= i < |g| :: g[i].name
  }

  /** `gameCities` is a dict: no two cities share a name. */
  predicate DistinctNames(g: seq<CityInfo>) {
    forall i, j :: 0 <= i < j < |g| ==> g[i].name != g[j].name
  }

  /** The first city from position `from` on whose name is `name`. */
  function FindFrom(g: seq<CityInfo>, name: string, from: nat): (r: Option<nat>)
    ensures r.Some? ==> from <= r.value < |g| && g[r.value].name == name
    ensures r.Some? ==> forall j :: from <= j < r.value ==> g[j].name != name
    ensures r.None? ==> forall j :: from <= j < |g| ==> g[j].name != name
    decreases |g| - from
  {
    if from >= |g| then None
    else if g[from].name == name then Some(from)
    else FindFrom(g, name, from + 1)
  }

  /** The city a name refers to: the scan `for city in gameCities: if
      name == city ...` of `outbreak` and `infect_city`. */
  function Find(g: seq<CityInfo>, name: string): (r: Option<nat>)
    ensures r.Some? ==> r.value < |g| && g[r.value].name == name
    ensures r.None? <==> name !in Names(g)
  {
    var r := FindFrom(g, name, 0);
    assert r.Some? ==> name in Names(g);
    r
  }

  /** With distinct names, a city's own name finds that city. */
  lemma FindOwnName(g: seq<CityInfo>, k: nat)
    requires DistinctNames(g) && k < |g|
    ensures Find(g, g[k].name) == Some(k)
  {
  }

  // ---------------------------------------------------------------------
  // The cascade
  // ---------------------------------------------------------------------

  predicate NoDup(xs: seq<string>) {
    forall i, j :: 0 <= i < j < |xs| ==> xs[i] != xs[j]
  }

  /** `longer` is `shorter` followed by zero or more names. */
  predicate Extends(longer: seq<string>, shorter: seq<string>) {
    |shorter| <= |longer| && longer[..|shorter|] == shorter
  }

  lemma ExtendsTransitive(a: seq<string>, b: seq<string>, c: seq<string>)
    requires Extends(a, b) && Extends(b, c)
    ensures Extends(a, c)
  {
    assert a[..|c|] == a[..|b|][..|c|];
  }

  function Visited(s: BoardState): set<string> {
    set x | x in s.outbreaks
  }

  /** The number of cities that have not outbroken yet in this cascade: the
      measure that bounds the cascade. */
  function Unvisited(g: seq<CityInfo>, s: BoardState): nat {
    |Names(g) - Visited(s)|
  }

  lemma UnvisitedShrinks(g: seq<CityInfo>, s: BoardState, k: nat)
    requires k < |g| && g[k].name !in s.outbreaks
    ensures Unvisited(g, s.(outbreaks := s.outbreaks + [g[k].name])) < Unvisited(g, s)
  {
    var name := g[k].name;
    var s' := s.(outbreaks := s.outbreaks + [name]);
    assert Visited(s') == Visited(s) + {name};
    assert name in Names(g);
    var a := Names(g) - Visited(s);
    assert Names(g) - Visited(s') == a - {name};
    assert a == (a - {name}) + {name};
  }

  /** `num_of_cubes` more cubes of `color` on a city. */
  function AddCubes(c: CityCubes, color: Color, n: int): (r: CityCubes)
    ensures forall d: Color :: d != color ==> r.cubes.Get(d) == c.cubes.Get(d)
    ensures c.total == c.cubes.Sum() ==> r.total == r.cubes.Sum()
  {
    SetSum(c.cubes, color, c.cubes.Get(color) + n);
    CityCubes(c.cubes.Set(color, c.cubes.Get(color) + n), c.total + n)
  }

  /** `infect_self(color, num_of_cubes)` on city `k`: while the city holds
      fewer than 3 cubes in all (whatever their colours) the cubes are added,
      without clamping, and taken from the pool; otherwise the city outbreaks. */
  function Infect(g: seq<CityInfo>, s: BoardState, k: nat, color: Color, n: int): (r: BoardState)
    requires |s.cities| == |g| && k < |g|
    ensures |r.cities| == |g|
    ensures Extends(r.outbreaks, s.outbreaks)
    ensures NoDup(s.outbreaks) ==> NoDup(r.outbreaks)
    ensures Unvisited(g, r) <= Unvisited(g, s)
    ensures s.cities[k].total >= 3 ==> g[k].name in r.outbreaks
    decreases Unvisited(g, s), 1
  {
    if s.cities[k].total < 3 then
      BoardState(s.cities[k := AddCubes(s.cities[k], color, n)],
                 s.pool.Set(color, s.pool.Get(color) - n),
                 s.outbreaks)
    else
      Outbreak(g, s, k, color)
  }

  /** `outbreak(color)` on city `k`: unless the city has already outbroken in
      this cascade, it is recorded and every connected city, in order,
      receives one cube of `color` through `infect_self`. */
  function Outbreak(g: seq<CityInfo>, s: BoardState, k: nat, color: Color): (r: BoardState)
    requires |s.cities| == |g| && k < |g|
    ensures |r.cities| == |g|
    ensures Extends(r.outbreaks, s.outbreaks)
    ensures NoDup(s.outbreaks) ==> NoDup(r.outbreaks)
    ensures Unvisited(g, r) <= Unvisited(g, s)
    ensures g[k].name in r.outbreaks
    ensures g[k].name !in s.outbreaks ==>
              |r.outbreaks| > |s.outbreaks| && r.outbreaks[|s.outbreaks|] == g[k].name
    decreases Unvisited(g, s), 0
  {
    var name := g[k].name;
    if name in s.outbreaks then s
    else
      var s' := s.(outbreaks := s.outbreaks + [name]);
      UnvisitedShrinks(g, s, k);
      var r := SpreadTo(g, s', g[k].connected, color);
      assert r.outbreaks[..|s'.outbreaks|] == s'.outbreaks;
      assert r.outbreaks[|s.outbreaks|] == s'.outbreaks[|s.outbreaks|];
      ExtendsTransitive(r.outbreaks, s'.outbreaks, s.outbreaks);
      r
  }

  /** The loop of `outbreak` over `connected_cities`: each name that is the
      key of a city gets one cube through `infect_self`; other names are
      skipped. */
  function SpreadTo(g: seq<CityInfo>, s: BoardState, conns: seq<string>, color: Color): (r: BoardState)
    requires |s.cities| == |g|
    ensures |r.cities| == |g|
    ensures Extends(r.outbreaks, s.outbreaks)
    ensures NoDup(s.outbreaks) ==> NoDup(r.outbreaks)
    ensures Unvisited(g, r) <= Unvisited(g, s)
    decreases Unvisited(g, s), 2, |conns|
  {
    if |conns| == 0 then s
    else
      var s1 := if Find(g, conns[0]).Some? then Infect(g, s, Find(g, conns[0]).value, color, 1) else s;
      var r := SpreadTo(g, s1, conns[1..], color);
      ExtendsTransitive(r.outbreaks, s1.outbreaks, s.outbreaks);
      r
  }

  // ---------------------------------------------------------------------
  // Cube conservation
  // ---------------------------------------------------------------------

  /** The cubes of one colour on all cities together. */
  function OnBoard(cs: seq<CityCubes>, c: Color): int {
    if |cs| == 0 then 0 else cs[0].cubes.Get(c) + OnBoard(cs[1..], c)
  }

  lemma {:induction false} OnBoardUpdate(cs: seq<CityCubes>, k: nat, v: CityCubes, c: Color)
    requires k < |cs|
    ensures OnBoard(cs[k := v], c) == OnBoard(cs, c) - cs[k].cubes.Get(c) + v.cubes.Get(c)
  {
    if k > 0 {
      assert cs[k := v][1..] == cs[1..][k - 1 := v];
      OnBoardUpdate(cs[1..], k - 1, v, c);
    }
  }

  /** No cube is on a board of empty cities. */
  lemma {:induction false} OnBoardEmpty(cs: seq<CityCubes>, c: Color)
    requires forall k :: 0 <= k < |cs| ==> cs[k].cubes == NoCubes
    ensures OnBoard(cs, c) == 0
  {
    if |cs| > 0 {
      OnBoardEmpty(cs[1..], c);
    }
  }

  /** Cubes of a colour on the board plus those left in the pool: 24 at the
      start of a game. */
  function InPlay(s: BoardState, c: Color): int {
    OnBoard(s.cities, c) + s.pool.Get(c)
  }

  /** Every city's `total_cubes` counts the cubes in its `cubes` table. */
  predicate Consistent(s: BoardState) {
    forall k :: 0 <= k < |s.cities| ==> s.cities[k].total == s.cities[k].cubes.Sum()
  }

  /** Infection moves cubes from the pool to a city and keeps `total_cubes`
      equal to the city's cube count. */
  lemma {:induction false} InfectConserves(g: seq<CityInfo>, s: BoardState, k: nat, color: Color, n: int)
    requires |s.cities| == |g| && k < |g|
    ensures forall c: Color :: InPlay(Infect(g, s, k, color, n), c) == InPlay(s, c)
    ensures Consistent(s) ==> Consistent(Infect(g, s, k, color, n))
    decreases Unvisited(g, s), 1
  {
    if s.cities[k].total < 3 {
      var v := AddCubes(s.cities[k], color, n);
      forall c: Color
        ensures InPlay(Infect(g, s, k, color, n), c) == InPlay(s, c)
      {
        OnBoardUpdate(s.cities, k, v, c);
      }
      SetSum(s.cities[k].cubes, color, s.cities[k].cubes.Get(color) + n);
    } else {
      OutbreakConserves(g, s, k, color);
    }
  }

  lemma {:induction false} OutbreakConserves(g: seq<CityInfo>, s: BoardState, k: nat, color: Color)
    requires |s.cities| == |g| && k < |g|
    ensures forall c: Color :: InPlay(Outbreak(g, s, k, color), c) == InPlay(s, c)
    ensures Consistent(s) ==> Consistent(Outbreak(g, s, k, color))
    decreases Unvisited(g, s), 0
  {
    var name := g[k].name;
    if name !in s.outbreaks {
      UnvisitedShrinks(g, s, k);
      SpreadConserves(g, s.(outbreaks := s.outbreaks + [name]), g[k].connected, color);
    }
  }

  lemma {:induction false} SpreadConserves(g: seq<CityInfo>, s: BoardState, conns: seq<string>, color: Color)
    requires |s.cities| == |g|
    ensures forall c: Color :: InPlay(SpreadTo(g, s, conns, color), c) == InPlay(s, c)
    ensures Consistent(s) ==> Consistent(SpreadTo(g, s, conns, color))
    decreases Unvisited(g, s), 2, |conns|
  {
    if |conns| > 0 {
      var s1 := s;
      if Find(g, conns[0]).Some? {
        InfectConserves(g, s, Find(g, conns[0]).value, color, 1);
        s1 := Infect(g, s, Find(g, conns[0]).value, color, 1);
      }
      SpreadConserves(g, s1, conns[1..], color);
    }
  }

  /** Each colour has 24 cubes on the board and in the pool together. */
  predicate Stocked(cities: seq<CityCubes>, pool: Cubes) {
    forall c: Color :: OnBoard(cities, c) + pool.Get(c) == 24
  }

  /** The invariant of a game's cube state: every city's total counts its
      cubes, and each colour has 24 cubes on the board and in the pool. */
  predicate Sound(cities: seq<CityCubes>, pool: Cubes) {
    Consistent(BoardState(cities, pool, [])) && Stocked(cities, pool)
  }

  /** No cube on any city: the board of a new game. */
  predicate EmptyBoard(cs: seq<CityCubes>) {
    forall k :: 0 <= k < |cs| ==> cs[k] == CityCubes(NoCubes, 0)
  }

  /** No cube on any city and a full pool: 24 per colour. */
  lemma EmptyBoardStocked(cs: seq<CityCubes>)
    requires EmptyBoard(cs)
    ensures Stocked(cs, StartingPool)
  {
    forall c: Color
      ensures OnBoard(cs, c) + StartingPool.Get(c) == 24
    {
      OnBoardEmpty(cs, c);
    }
  }

  /** A new game's board is sound: no cube on any city, 24 of each colour
      in the pool. */
  lemma EmptyBoardSound(cs: seq<CityCubes>)
    requires EmptyBoard(cs)
    ensures Sound(cs, StartingPool)
  {
    EmptyBoardStocked(cs);
  }

  /** Placing cubes on a city that takes them from the pool keeps the board
      sound. */
  lemma PlaceSound(cities: seq<CityCubes>, pool: Cubes, k: nat, color: Color, n: int)
    requires k < |cities| && Sound(cities, pool)
    ensures Sound(cities[k := AddCubes(cities[k], color, n)], pool.Set(color, pool.Get(color) - n))
  {
    var v := AddCubes(cities[k], color, n);
    var cs := cities[k := v];
    var p := pool.Set(color, pool.Get(color) - n);
    forall c: Color
      ensures OnBoard(cs, c) + p.Get(c) == 24
    {
      OnBoardUpdate(cities, k, v, c);
    }
    SetSum(cities[k].cubes, color, cities[k].cubes.Get(color) + n);
    assert Consistent(BoardState(cs, p, []));
  }

  lemma InfectSound(g: seq<CityInfo>, s: BoardState, k: nat, color: Color, n: int)
    requires |s.cities| == |g| && k < |g| && Sound(s.cities, s.pool)
    ensures var r := Infect(g, s, k, color, n); Sound(r.cities, r.pool)
  {
    var r := Infect(g, s, k, color, n);
    InfectConserves(g, s, k, color, n);
    forall c: Color
      ensures OnBoard(r.cities, c) + r.pool.Get(c) == 24
    {
      assert InPlay(r, c) == InPlay(s, c);
    }
  }

  lemma OutbreakSound(g: seq<CityInfo>, s: BoardState, k: nat, color: Color)
    requires |s.cities| == |g| && k < |g| && Sound(s.cities, s.pool)
    ensures var r := Outbreak(g, s, k, color); Sound(r.cities, r.pool)
  {
    var r := Outbreak(g, s, k, color);
    OutbreakConserves(g, s, k, color);
    forall c: Color
      ensures OnBoard(r.cities, c) + r.pool.Get(c) == 24
    {
      assert InPlay(r, c) == InPlay(s, c);
    }
  }

  // ---------------------------------------------------------------------
  // Saturated cities
  // ---------------------------------------------------------------------

  /** Adding cubes never lowers a city's `total_cubes`, and a city that
      already holds 3 or more cubes is never changed: it can only outbreak. */
  ghost predicate Settled(g: seq<CityInfo>, s: BoardState, r: BoardState)
    requires |s.cities| == |g| && |r.cities| == |g|
  {
    forall j :: 0 <= j < |g| ==>
      r.cities[j].total >= s.cities[j].total && (s.cities[j].total >= 3 ==> r.cities[j] == s.cities[j])
  }

  lemma {:induction false} InfectSettles(g: seq<CityInfo>, s: BoardState, k: nat, color: Color, n: int)
    requires |s.cities| == |g| && k < |g| && n >= 0
    ensures Settled(g, s, Infect(g, s, k, color, n))
    decreases Unvisited(g, s), 1
  {
    if s.cities[k].total >= 3 {
      OutbreakSettles(g, s, k, color);
    }
  }

  lemma {:induction false} OutbreakSettles(g: seq<CityInfo>, s: BoardState, k: nat, color: Color)
    requires |s.cities| == |g| && k < |g|
    ensures Settled(g, s, Outbreak(g, s, k, color))
    decreases Unvisited(g, s), 0
  {
    var name := g[k].name;
    if name !in s.outbreaks {
      UnvisitedShrinks(g, s, k);
      SpreadSettles(g, s.(outbreaks := s.outbreaks + [name]), g[k].connected, color);
    }
  }

  lemma {:induction false} SpreadSettles(g: seq<CityInfo>, s: BoardState, conns: seq<string>, color: Color)
    requires |s.cities| == |g|
    ensures Settled(g, s, SpreadTo(g, s, conns, color))
    decreases Unvisited(g, s), 2, |conns|
  {
    if |conns| > 0 {
      var s1 := s;
      if Find(g, conns[0]).Some? {
        InfectSettles(g, s, Find(g, conns[0]).value, color, 1);
        s1 := Infect(g, s, Find(g, conns[0]).value, color, 1);
      }
      SpreadSettles(g, s1, conns[1..], color);
    }
  }

  /** What `infect_self` does to the city it is called on: below 3 cubes in
      all, `cubes[color]` and `total_cubes` rise by exactly `num_of_cubes`,
      the pool of that colour falls by as much, and nothing else changes;
      otherwise the city keeps its cubes and outbreaks. */
  lemma InfectCases(g: seq<CityInfo>, s: BoardState, k: nat, color: Color, n: int)
    requires |s.cities| == |g| && k < |g| && n >= 0
    ensures var r := Infect(g, s, k, color, n);
            if s.cities[k].total < 3 then
              && r.cities[k].cubes.Get(color) == s.cities[k].cubes.Get(color) + n
              && r.cities[k].total == s.cities[k].total + n
              && r.pool.Get(color) == s.pool.Get(color) - n
              && (forall c: Color :: c != color ==>
                    r.cities[k].cubes.Get(c) == s.cities[k].cubes.Get(c) && r.pool.Get(c) == s.pool.Get(c))
              && (forall j :: 0 <= j < |g| && j != k ==> r.cities[j] == s.cities[j])
              && r.outbreaks == s.outbreaks
            else
              r.cities[k] == s.cities[k] && g[k].name in r.outbreaks
  {
    if s.cities[k].total >= 3 {
      InfectSettles(g, s, k, color, n);
    }
  }

  // ---------------------------------------------------------------------
  // Who outbreaks
  // ---------------------------------------------------------------------

  /** A city called `name` holds 3 or more cubes. */
  ghost predicate Saturated(g: seq<CityInfo>, cs: seq<CityCubes>, name: string)
    requires |cs| == |g|
  {
    exists j :: 0 <= j < |g| && g[j].name == name && cs[j].total >= 3
  }

  /** The names recorded in `r.outbreaks` from position `from` on are all
      names of saturated cities. */
  ghost predicate SaturatedFrom(g: seq<CityInfo>, r: BoardState, from: nat)
    requires |r.cities| == |g|
  {
    forall i :: from <= i < |r.outbreaks| ==> Saturated(g, r.cities, r.outbreaks[i])
  }

  /** Saturation survives any later part of a cascade. */
  lemma SaturatedFromStays(g: seq<CityInfo>, s: BoardState, r: BoardState, from: nat, to: nat)
    requires |s.cities| == |g| && |r.cities| == |g| && Settled(g, s, r)
    requires Extends(r.outbreaks, s.outbreaks) && to == |s.outbreaks|
    requires SaturatedFrom(g, s, from) && SaturatedFrom(g, r, to)
    ensures SaturatedFrom(g, r, from)
  {
    forall i | from <= i < |r.outbreaks|
      ensures Saturated(g, r.cities, r.outbreaks[i])
    {
      if i < to {
        assert r.outbreaks[i] == r.outbreaks[..to][i] == s.outbreaks[i];
        var j :| 0 <= j < |g| && g[j].name == s.outbreaks[i] && s.cities[j].total >= 3;
        assert r.cities[j].total >= 3;
      }
    }
  }

  /** Every city that outbreaks in a cascade started by `infect_self` holds
      3 or more cubes when the cascade ends. */
  lemma {:induction false} InfectOutbreaksSaturated(g: seq<CityInfo>, s: BoardState, k: nat, color: Color, n: int)
    requires |s.cities| == |g| && k < |g| && n >= 0
    ensures SaturatedFrom(g, Infect(g, s, k, color, n), |s.outbreaks|)
    decreases Unvisited(g, s), 1
  {
    if s.cities[k].total >= 3 {
      var r := Outbreak(g, s, k, color);
      assert Infect(g, s, k, color, n) == r;
      OutbreakOutbreaksSaturated(g, s, k, color);
      OutbreakSettles(g, s, k, color);
      if g[k].name !in s.outbreaks {
        assert r.cities[k].total >= 3;
        assert Saturated(g, r.cities, r.outbreaks[|s.outbreaks|]);
      }
    }
  }

  /** Every city after the first that a call of `outbreak` sets off
      holds 3 or more cubes when the cascade ends. */
  lemma {:induction false} OutbreakOutbreaksSaturated(g: seq<CityInfo>, s: BoardState, k: nat, color: Color)
    requires |s.cities| == |g| && k < |g|
    ensures SaturatedFrom(g, Outbreak(g, s, k, color), |s.outbreaks| + 1)
    decreases Unvisited(g, s), 0
  {
    var name := g[k].name;
    if name !in s.outbreaks {
      var s' := s.(outbreaks := s.outbreaks + [name]);
      UnvisitedShrinks(g, s, k);
      assert Outbreak(g, s, k, color) == SpreadTo(g, s', g[k].connected, color);
      SpreadOutbreaksSaturated(g, s', g[k].connected, color);
    }
  }

  lemma {:induction false} SpreadOutbreaksSaturated(g: seq<CityInfo>, s: BoardState, conns: seq<string>, color: Color)
    requires |s.cities| == |g|
    ensures SaturatedFrom(g, SpreadTo(g, s, conns, color), |s.outbreaks|)
    decreases Unvisited(g, s), 2, |conns|
  {
    if |conns| > 0 {
      var f := Find(g, conns[0]);
      var s1 := if f.Some? then Infect(g, s, f.value, color, 1) else s;
      var r := SpreadTo(g, s1, conns[1..], color);
      assert SpreadTo(g, s, conns, color) == r;
      if f.Some? {
        InfectOutbreaksSaturated(g, s, f.value, color, 1);
      }
      SpreadOutbreaksSaturated(g, s1, conns[1..], color);
      SpreadSettles(g, s1, conns[1..], color);
      SaturatedFromStays(g, s1, r, |s.outbreaks|, |s1.outbreaks|);
    }
  }

  // ---------------------------------------------------------------------
  // A single outbreak
  // ---------------------------------------------------------------------

  /** Infecting a list of distinct city names, none of whose cities is
      saturated, gives each one exactly one cube and sets off no outbreak. */
  lemma {:induction false} SpreadUnsaturated(g: seq<CityInfo>, s: BoardState, conns: seq<string>, color: Color)
    requires |s.cities| == |g| && DistinctNames(g) && NoDup(conns)
    requires forall x :: x in conns ==> Find(g, x).Some? && s.cities[Find(g, x).value].total < 3
    ensures var r := SpreadTo(g, s, conns, color);
            && r.outbreaks == s.outbreaks
            && r.pool == s.pool.Set(color, s.pool.Get(color) - |conns|)
            && forall j :: 0 <= j < |g| ==>
                 r.cities[j] == if g[j].name in conns then AddCubes(s.cities[j], color, 1) else s.cities[j]
    decreases |conns|
  {
    if |conns| > 0 {
      var j0 := Find(g, conns[0]).value;
      var s1 := Infect(g, s, j0, color, 1);
      assert s1.cities == s.cities[j0 := AddCubes(s.cities[j0], color, 1)];
      var rest := conns[1..];
      assert conns[0] !in rest by {
        forall i | 0 <= i < |rest| ensures rest[i] != conns[0] {
          assert rest[i] == conns[i + 1];
        }
      }
      forall x | x in rest
        ensures Find(g, x).Some? && s1.cities[Find(g, x).value].total < 3
      {
        assert Find(g, x).value != j0;
      }
      assert NoDup(rest) by {
        forall a, b | 0 <= a < b < |rest| ensures rest[a] != rest[b] {
          assert rest[a] == conns[a + 1] && rest[b] == conns[b + 1];
        }
      }
      SpreadUnsaturated(g, s1, rest, color);
      var r := SpreadTo(g, s1, rest, color);
      assert r.pool == s.pool.Set(color, s.pool.Get(color) - |conns|) by {
        assert r.pool == s1.pool.Set(color, s1.pool.Get(color) - |rest|);
      }
      forall j | 0 <= j < |g|
        ensures r.cities[j] == if g[j].name in conns then AddCubes(s.cities[j], color, 1) else s.cities[j]
      {
        assert g[j].name in conns <==> g[j].name == conns[0] || g[j].name in rest;
        if j == j0 {
          assert g[j].name !in rest;
        } else {
          assert g[j].name != conns[0];
        }
      }
    }
  }

  /** A saturated city that has not outbroken yet, none of whose distinct
      neighbours is saturated, outbreaks exactly once: it is recorded once,
      every neighbour gets exactly one cube of the colour, the pool pays one
      cube per neighbour, and no other city changes. */
  lemma OutbreakIntoNeighbours(g: seq<CityInfo>, s: BoardState, k: nat, color: Color)
    requires |s.cities| == |g| && k < |g| && DistinctNames(g)
    requires s.cities[k].total >= 3 && g[k].name !in s.outbreaks
    requires NoDup(g[k].connected)
    requires forall x :: x in g[k].connected ==> Find(g, x).Some? && s.cities[Find(g, x).value].total < 3
    ensures var r := Infect(g, s, k, color, 1);
            && r.outbreaks == s.outbreaks + [g[k].name]
            && r.pool == s.pool.Set(color, s.pool.Get(color) - |g[k].connected|)
            && forall j :: 0 <= j < |g| ==>
                 r.cities[j] == if g[j].name in g[k].connected then AddCubes(s.cities[j], color, 1) else s.cities[j]
  {
    SpreadUnsaturated(g, s.(outbreaks := s.outbreaks + [g[k].name]), g[k].connected, color);
  }

  /** `total_cubes` is tested before adding, so the count is not clamped:
      three cubes on a city holding two end at five. */
  lemma InfectionIsUnclamped(g: seq<CityInfo>, s: BoardState, color: Color)
    requires |g| == 1 && |s.cities| == 1 && s.cities[0].total == 2
    ensures Infect(g, s, 0, color, 3).cities[0].total == 5
  {
  }

  // ---------------------------------------------------------------------
  // treat_self
  // ---------------------------------------------------------------------

  /** A city's cubes and the global pool after a treatment. */
  datatype Treated = Treated(city: CityCubes, pool: Cubes)

  /** `treat_self(color)` as written: a cured colour returns all of the city's
      cubes of that colour to the pool, any other colour returns one; the
      city's `total_cubes` is left as it was. */
  function TreatAsWritten(c: CityCubes, pool: Cubes, color: Color, cured: seq<Color>): (r: Treated)
    ensures r.city.cubes.Get(color) + r.pool.Get(color) == c.cubes.Get(color) + pool.Get(color)
    ensures r.city.cubes.Get(color) == if color in cured then 0 else c.cubes.Get(color) - 1
    ensures forall d: Color :: d != color ==>
              r.city.cubes.Get(d) == c.cubes.Get(d) && r.pool.Get(d) == pool.Get(d)
    ensures r.city.total == c.total
  {
    if color in cured then
      Treated(c.(cubes := c.cubes.Set(color, 0)), pool.Set(color, pool.Get(color) + c.cubes.Get(color)))
    else
      Treated(c.(cubes := c.cubes.Set(color, c.cubes.Get(color) - 1)), pool.Set(color, pool.Get(color) + 1))
  }

  /** `treat_self(color)` with `total_cubes` lowered by the cubes removed, so
      that it keeps counting the city's cubes. */
  function Treat(c: CityCubes, pool: Cubes, color: Color, cured: seq<Color>): (r: Treated)
    ensures r.city.cubes.Get(color) + r.pool.Get(color) == c.cubes.Get(color) + pool.Get(color)
    ensures r.city.cubes.Get(color) == if color in cured then 0 else c.cubes.Get(color) - 1
    ensures forall d: Color :: d != color ==>
              r.city.cubes.Get(d) == c.cubes.Get(d) && r.pool.Get(d) == pool.Get(d)
    ensures c.total == c.cubes.Sum() ==> r.city.total == r.city.cubes.Sum()
  {
    var removed := if color in cured then c.cubes.Get(color) else 1;
    SetSum(c.cubes, color, c.cubes.Get(color) - removed);
    Treated(CityCubes(c.cubes.Set(color, c.cubes.Get(color) - removed), c.total - removed),
            pool.Set(color, pool.Get(color) + removed))
  }

  /** Treating city `k` of a board. */
  function TreatAt(s: BoardState, k: nat, color: Color, cured: seq<Color>): (r: BoardState)
    requires k < |s.cities|
    ensures |r.cities| == |s.cities| && r.outbreaks == s.outbreaks
    ensures forall c: Color :: InPlay(r, c) == InPlay(s, c)
    ensures Consistent(s) ==> Consistent(r)
  {
    var t := Treat(s.cities[k], s.pool, color, cured);
    var r := BoardState(s.cities[k := t.city], t.pool, s.outbreaks);
    assert forall c: Color :: InPlay(r, c) == InPlay(s, c) by {
      forall c: Color ensures InPlay(r, c) == InPlay(s, c) {
        OnBoardUpdate(s.cities, k, t.city, c);
      }
    }
    r
  }

  /** Treating a city keeps the board sound. */
  lemma TreatSound(cities: seq<CityCubes>, pool: Cubes, k: nat, color: Color, cured: seq<Color>)
    requires k < |cities| && Sound(cities, pool)
    ensures var t := Treat(cities[k], pool, color, cured); Sound(cities[k := t.city], t.pool)
  {
    var s := BoardState(cities, pool, []);
    var r := TreatAt(s, k, color, cured);
    forall c: Color
      ensures OnBoard(r.cities, c) + r.pool.Get(c) == 24
    {
      assert InPlay(r, c) == InPlay(s, c);
    }
  }

  /** As written, treating a city that holds three red cubes leaves its
      `total_cubes` at 3 although it holds two cubes, and a blue cube sent to
      it afterwards sets off an outbreak instead of being placed. */
  lemma TreatAsWrittenKeepsCityFull()
    ensures var g := [CityInfo("Atlanta", [])];
            var c := CityCubes(Cubes(3, 0, 0, 0), 3);
            var t := TreatAsWritten(c, StartingPool, Red, []);
            var r := Infect(g, BoardState([t.city], t.pool, []), 0, Blue, 1);
            && t.city.cubes.Sum() == 2 && t.city.total == 3
            && r.cities == [t.city] && r.outbreaks == ["Atlanta"]
  {
    var g := [CityInfo("Atlanta", [])];
    var t := TreatAsWritten(CityCubes(Cubes(3, 0, 0, 0), 3), StartingPool, Red, []);
    var s := BoardState([t.city], t.pool, []);
    assert Infect(g, s, 0, Blue, 1) == Outbreak(g, s, 0, Blue);
    assert "Atlanta" !in s.outbreaks;
    assert SpreadTo(g, s.(outbreaks := ["Atlanta"]), [], Blue) == s.(outbreaks := ["Atlanta"]);
  }

  /** With `total_cubes` lowered, the same city takes the blue cube. */
  lemma TreatThenInfect()
    ensures var g := [CityInfo("Atlanta", [])];
            var c := CityCubes(Cubes(3, 0, 0, 0), 3);
            var t := Treat(c, StartingPool, Red, []);
            var r := Infect(g, BoardState([t.city], t.pool, []), 0, Blue, 1);
            && t.city.total == 2
            && r.cities == [CityCubes(Cubes(2, 1, 0, 0), 3)] && r.outbreaks == []
  {
  }
}
