/** Python's exceptions that the rules engine can raise, and the Option/Result
    wrappers used to model them as values. */
module Errors {

  datatype Option<+T> = None | Some(value: T)

  /** The exceptions the core raises on bad input: `list.pop` on an empty list
      or a bad index, `list.remove` of a missing card, `range` with step 0,
      a division by zero, a dictionary lookup of a missing key. */
  datatype PyError = IndexError | ValueError | ZeroDivisionError | KeyError

  datatype Result<+T> = Ok(value: T) | Err(error: PyError)
}

/** The game's vocabulary: disease colours, roles and the two card kinds. */
module Cards {

  datatype Color = Red | Blue | Yellow | Black

  /** A per-colour cube table: a city's `cubes` dict or the game's
      `InfectionCubes` dict. Both always hold exactly the four colour keys,
      so the dict is a record with one counter per colour. */
  datatype Cubes = Cubes(red: int, blue: int, yellow: int, black: int) {

    /** `table[c]` */
    function Get(c: Color): int {
      match c
      case Red => red
      case Blue => blue
      case Yellow => yellow
      case Black => black
    }

    /** `table[c] = v` */
    function Set(c: Color, v: int): (t: Cubes)
      ensures t.Get(c) == v
      ensures forall d: Color :: d != c ==> t.Get(d) == Get(d)
    {
      match c
      case Red => this.(red := v)
      case Blue => this.(blue := v)
      case Yellow => this.(yellow := v)
      case Black => this.(black := v)
    }

    /** The number of cubes over all four colours. */
    function Sum(): int {
      red + blue + yellow + black
    }
  }

  lemma {:induction false} SetSum(t: Cubes, c: Color, v: int)
    ensures t.Set(c, v).Sum() == t.Sum() - t.Get(c) + v
  {
    match c
    case Red => case Blue => case Yellow => case Black =>
  }

  /** The global pool a new game starts with: 24 cubes of every colour. */
  const StartingPool: Cubes := Cubes(24, 24, 24, 24)

  /** A new city's `cubes` table: no cube of any colour. */
  const NoCubes: Cubes := Cubes(0, 0, 0, 0)

  /** The six roles of `AvailableRoles`. */
  datatype Role =
    | Scientist | Medic | Researcher | OperationsExpert | ContingencyPlanner | QuarantineSpecialist

  /** A player card: a city card (name, id, colour), an event card, or an
      epidemic card, whose payload is the list `[5, 6, k]`. */
  datatype Card =
    | CityCard(name: string, cityId: int, color: Color)
    | EventCard(title: string)
    | EpidemicCard(payload: seq<int>)

  /** The epidemic card `add_pandemic_cards` appends to chunk number `num`
      (counting from 0, as `enumerate` does): `["Epidemic", [5, 6, num + 1]]`. */
  function Epidemic(num: int): (c: Card)
    ensures c.EpidemicCard? && |c.payload| == 3 && c.payload[2] == num + 1
  {
    EpidemicCard([5, 6, num + 1])
  }

  /** An infection card names a city and the colour of cube it places:
      `card[0]` and `card[2]` in the source. */
  datatype InfectionCard = InfectionCard(city: string, cityId: int, color: Color)

  /** A deck holds no epidemic card (true of the deck before
      `add_pandemic_cards`). */
  predicate NoEpidemics(d: seq<Card>) {
    forall i :: 0 <= i < |d| ==> !d[i].EpidemicCard?
  }
}
