/** The list operations the two decks and the hands rely on, the chunking
    generator and the epidemic-deck layout of `PlayerDeck`, the two-pop draw of
    `InfectionDeck`, the deal of `set_items`, and the `draw_states` table. */
module Decks {
  import opened Errors
  import opened Cards

  // ---------------------------------------------------------------------
  // list.pop and list.remove
  // ---------------------------------------------------------------------

  /** The position `list.pop(index)` removes from a list of length `n`:
      the last one without an index, otherwise `index`, where a negative index
      counts from the end. None is Python's IndexError. */
  function PopPosition(n: nat, index: Option<int>): (r: Option<nat>)
    ensures r.Some? ==> r.value < n
    ensures index.None? ==> (r.Some? <==> n > 0) && (r.Some? ==> r.value + 1 == n)
    ensures index.Some? ==> (r.Some? <==> -(n as int) <= index.value < n)
    ensures index.Some? && r.Some? ==> r.value == index.value || r.value == index.value + n
  {
    match index
    case None => if n > 0 then Some(n - 1) else None
    case Some(i) =>
      if 0 <= i < n then Some(i)
      else if -(n as int) <= i < 0 then Some(n + i)
      else None
  }

  /** `list.pop(index)`: the removed element and the list that remains. */
  function Pop<T>(s: seq<T>, index: Option<int>): (r: Result<(T, seq<T>)>)
    ensures r.Err? <==> PopPosition(|s|, index).None?
    ensures r.Err? ==> r.error == IndexError
    ensures r.Ok? ==>
              var p := PopPosition(|s|, index).value;
              var (x, rest) := r.value;
              && x == s[p]
              && |rest| == |s| - 1
              && (forall j :: 0 <= j < p ==> rest[j] == s[j])
              && (forall j :: p <= j < |rest| ==> rest[j] == s[j + 1])
              && multiset(rest) + multiset{x} == multiset(s)
  {
    match PopPosition(|s|, index)
    case None => Err(IndexError)
    case Some(p) =>
      assert s == s[..p] + [s[p]] + s[p + 1..];
      Ok((s[p], s[..p] + s[p + 1..]))
  }

  /** `pop(0)` takes the first element and leaves the others in order. */
  lemma PopFront<T>(s: seq<T>)
    requires |s| > 0
    ensures Pop(s, Some(0)) == Ok((s[0], s[1..]))
  {
    assert s[..0] + s[1..] == s[1..];
  }

  /** A prefix of a prefix is a prefix. */
  lemma PrefixOfPrefix<T>(s: seq<T>, a: nat, b: nat)
    requires b <= a <= |s|
    ensures s[..a][..b] == s[..b]
  {
  }

  /** `pop()` takes the last element and leaves the others in order. */
  lemma PopTop<T>(s: seq<T>)
    requires |s| > 0
    ensures Pop(s, None) == Ok((s[|s| - 1], s[..|s| - 1]))
  {
    assert s[..|s| - 1] + s[|s|..] == s[..|s| - 1];
  }

  /** The position of the first occurrence of `x` in `s`. */
  function FirstIndex<T(==)>(s: seq<T>, x: T): (r: Option<nat>)
    ensures r.None? <==> x !in s
    ensures r.Some? ==> r.value < |s| && s[r.value] == x && x !in s[..r.value]
  {
    if |s| == 0 then None
    else if s[0] == x then Some(0)
    else match FirstIndex(s[1..], x)
      case None => None
      case Some(j) =>
        assert s[..j + 1] == [s[0]] + s[1..][..j];
        Some(j + 1)
  }

  /** `list.remove(x)`: drops the first occurrence of `x`; ValueError if
      there is none. */
  function Remove<T(==)>(s: seq<T>, x: T): (r: Result<seq<T>>)
    ensures r.Err? <==> x !in s
    ensures r.Err? ==> r.error == ValueError
    ensures r.Ok? ==>
              && |r.value| == |s| - 1
              && multiset(r.value) == multiset(s) - multiset{x}
              && multiset(r.value) + multiset{x} == multiset(s)
              && (exists p :: 0 <= p < |s| && s[p] == x && x !in s[..p] && r.value == s[..p] + s[p + 1..])
  {
    match FirstIndex(s, x)
    case None => Err(ValueError)
    case Some(p) =>
      assert s == s[..p] + [s[p]] + s[p + 1..];
      Ok(s[..p] + s[p + 1..])
  }

  // ---------------------------------------------------------------------
  // chunk_cards
  // ---------------------------------------------------------------------

  /** Python 3's `round(n / d)` for integers with d > 0: the nearest integer,
      a tie going to the even neighbour. */
  function RoundDiv(n: int, d: int): (r: int)
    requires d > 0
    ensures -d <= 2 * (n - r * d) <= d
    ensures 2 * (n - r * d) == d || 2 * (n - r * d) == -d ==> r % 2 == 0
  {
    var q, m := n / d, n % d;
    assert n - q * d == m;
    assert n - (q + 1) * d == m - d;
    if 2 * m < d then q
    else if 2 * m > d then q + 1
    else if q % 2 == 0 then q
    else q + 1
  }

  /** The step `round(len(deck) / pandemic_cards)` that `chunk_cards` slices
      with. Dividing by zero raises ZeroDivisionError; halves round to even in
      both signs, so a negative divisor gives the negated step. */
  function ChunkStep(n: nat, epidemics: int): (r: Result<int>)
    ensures r.Err? <==> epidemics == 0
    ensures epidemics > 0 ==> r.Ok? && r.value >= 0
    ensures epidemics > 0 && 2 * n > epidemics ==> r.value > 0
    ensures epidemics > 0 && 2 * n < epidemics ==> r.value == 0
  {
    if epidemics == 0 then Err(ZeroDivisionError)
    else if epidemics > 0 then Ok(RoundDiv(n, epidemics))
    else Ok(-RoundDiv(n, -epidemics))
  }

  /** The slices `deck[i:i + s]` that `chunk_cards` yields for
      `i in range(from, len(deck), s)`. Python slicing stops at the end of the
      list, so the last slice may be shorter. */
  function ChunksFrom<T>(d: seq<T>, s: nat, from: nat): (r: seq<seq<T>>)
    requires s > 0
    ensures forall k :: 0 <= k < |r| ==> 0 < |r[k]| <= s
    decreases |d| - from
  {
    if from >= |d| then []
    else [d[from..if from + s <= |d| then from + s else |d|]] + ChunksFrom(d, s, from + s)
  }

  /** The first slice from `from` on, and the slices after it. */
  lemma ChunksFromNext<T>(d: seq<T>, s: nat, from: nat)
    requires s > 0 && from < |d|
    ensures ChunksFrom(d, s, from) == [d[from..if from + s <= |d| then from + s else |d|]] + ChunksFrom(d, s, from + s)
  {
  }

  /** A list whose tail from `n` on is `[x] + rest` holds `x` at `n`. */
  lemma TailCons<T>(a: seq<T>, n: nat, x: T, rest: seq<T>)
    requires n <= |a| && a[n..] == [x] + rest
    ensures n < |a| && a[n] == x && a[n + 1..] == rest
  {
    assert a[n..][0] == x;
    assert a[n + 1..] == a[n..][1..];
  }

  /** All slices `chunk_cards(deck, E)` yields when its step `s` is positive. */
  function Chunks<T>(d: seq<T>, s: nat): (r: seq<seq<T>>)
    requires s > 0
    ensures forall k :: 0 <= k < |r| ==> 0 < |r[k]| <= s
  {
    ChunksFrom(d, s, 0)
  }

  /** The concatenation of a list of lists in order. */
  function Flatten<T>(ss: seq<seq<T>>): seq<T> {
    if |ss| == 0 then [] else ss[0] + Flatten(ss[1..])
  }

  lemma {:induction false} FlattenSnoc<T>(ss: seq<seq<T>>, t: seq<T>)
    ensures Flatten(ss + [t]) == Flatten(ss) + t
  {
    if |ss| == 0 {
      assert ss + [t] == [t];
    } else {
      assert (ss + [t])[1..] == ss[1..] + [t];
      FlattenSnoc(ss[1..], t);
    }
  }

  lemma {:induction false} FlattenMember<T>(ss: seq<seq<T>>, k: nat, x: T)
    requires k < |ss| && x in ss[k]
    ensures x in Flatten(ss)
  {
    if k > 0 {
      FlattenMember(ss[1..], k - 1, x);
    }
  }

  /** ceil(n / s), the number of iterations of `range(0, n, s)`. */
  function CeilDiv(n: nat, s: nat): nat
    requires s > 0
  {
    if n == 0 then 0 else if n <= s then 1 else 1 + CeilDiv(n - s, s)
  }

  /** CeilDiv(n, s) is the least c with n <= c * s. */
  lemma {:induction false} CeilDivBounds(n: nat, s: nat)
    requires s > 0
    ensures CeilDiv(n, s) * s >= n
    ensures n > 0 ==> (CeilDiv(n, s) - 1) * s < n
  {
    if n > s {
      CeilDivBounds(n - s, s);
      var c := CeilDiv(n - s, s);
      assert CeilDiv(n, s) * s == c * s + s;
      assert (CeilDiv(n, s) - 1) * s == c * s;
    }
  }

  /** The slices cover the deck from `from` on, in order, each holding `s`
      cards except the last, which holds the rest; there are
      ceil((len - from) / s) of them. */
  lemma {:induction false} ChunksFromShape<T>(d: seq<T>, s: nat, from: nat)
    requires s > 0 && from <= |d|
    ensures Flatten(ChunksFrom(d, s, from)) == d[from..]
    ensures |ChunksFrom(d, s, from)| == CeilDiv(|d| - from, s)
    ensures forall k :: 0 <= k < |ChunksFrom(d, s, from)| ==> 0 < |ChunksFrom(d, s, from)[k]| <= s
    ensures forall k :: 0 <= k < |ChunksFrom(d, s, from)| - 1 ==> |ChunksFrom(d, s, from)[k]| == s
    decreases |d| - from
  {
    var cs := ChunksFrom(d, s, from);
    if from == |d| {
    } else if from + s >= |d| {
      assert ChunksFrom(d, s, from + s) == [];
      assert cs[0] == d[from..];
      assert cs == [d[from..]];
      assert Flatten(cs) == d[from..] + Flatten(cs[1..]);
    } else {
      ChunksFromShape(d, s, from + s);
      var rest := ChunksFrom(d, s, from + s);
      assert cs == [d[from..from + s]] + rest;
      assert cs[1..] == rest;
      assert d[from..] == d[from..from + s] + d[from + s..];
      assert forall k :: 1 <= k < |cs| ==> cs[k] == rest[k - 1];
    }
  }

  /** `chunk_cards` cuts a deck of N cards into ceil(N / s) slices that
      concatenate back to the deck. */
  lemma ChunksShape<T>(d: seq<T>, s: nat)
    requires s > 0
    ensures Flatten(Chunks(d, s)) == d
    ensures |Chunks(d, s)| == CeilDiv(|d|, s)
    ensures forall k :: 0 <= k < |Chunks(d, s)| ==> 0 < |Chunks(d, s)[k]| <= s
    ensures forall k :: 0 <= k < |Chunks(d, s)| - 1 ==> |Chunks(d, s)[k]| == s
  {
    ChunksFromShape(d, s, 0);
  }

  // ---------------------------------------------------------------------
  // add_pandemic_cards
  // ---------------------------------------------------------------------

  /** The epidemic cards of chunks from .. from+n-1, in order. */
  function EpidemicsFrom(from: nat, n: nat): (r: seq<Card>)
    ensures |r| == n
    ensures forall k :: 0 <= k < n ==> r[k] == Epidemic(from + k)
    decreases n
  {
    if n == 0 then [] else [Epidemic(from)] + EpidemicsFrom(from + 1, n - 1)
  }

  /** A deck `add_pandemic_cards` can produce from `d` with step `s`: some
      shuffle of each chunk after its epidemic card was appended, the shuffled
      chunks concatenated in chunk order. */
  ghost predicate EpidemicLayout(d: seq<Card>, s: nat, pieces: seq<seq<Card>>)
    requires s > 0
  {
    |pieces| == |Chunks(d, s)| && PiecesMatch(Chunks(d, s), pieces)
  }

  /** The exception `add_pandemic_cards` raises on a deck of `n` cards:
      ZeroDivisionError from `round(n / 0)`, ValueError from a `range` of
      step 0, and none otherwise. */
  function AddEpidemicsError(n: nat, epidemics: int): Option<PyError> {
    match ChunkStep(n, epidemics)
    case Err(_) => Some(ZeroDivisionError)
    case Ok(s) => if s == 0 then Some(ValueError) else None
  }

  /** The player deck `add_pandemic_cards` leaves when it starts from `d`:
      unchanged when it raises, empty for a negative step (the `range` is
      empty and the deck becomes the empty `chunk_list`), and the epidemic
      layout `pieces` for a positive step. */
  ghost predicate EpidemicsAdded(d: seq<Card>, epidemics: int, deck: seq<Card>, pieces: seq<seq<Card>>) {
    var step := ChunkStep(|d|, epidemics);
    if step.Err? || step.value == 0 then deck == d
    else if step.value < 0 then deck == []
    else deck == Flatten(pieces) && EpidemicLayout(d, step.value, pieces)
  }

  /** Each piece holds the cards of the chunk at its position and that
      position's epidemic card. */
  ghost predicate PiecesMatch(cs: seq<seq<Card>>, pieces: seq<seq<Card>>) {
    && |pieces| <= |cs|
    && (forall k :: 0 <= k < |pieces| ==> multiset(pieces[k]) == multiset(cs[k] + [Epidemic(k)]))
  }

  lemma PiecesMatchSnoc(cs: seq<seq<Card>>, pieces: seq<seq<Card>>, piece: seq<Card>)
    requires PiecesMatch(cs, pieces) && |pieces| < |cs|
    requires multiset(piece) == multiset(cs[|pieces|] + [Epidemic(|pieces|)])
    ensures PiecesMatch(cs, pieces + [piece])
  {
  }

  /** The slices from position `from` on are the chunks from number `num`
      on. */
  predicate AtChunk(d: seq<Card>, s: nat, from: nat, num: nat)
    requires s > 0
  {
    num <= |Chunks(d, s)| && ChunksFrom(d, s, from) == Chunks(d, s)[num..]
  }

  /** One turn of the loop of `add_pandemic_cards`: the slice at `from` is
      chunk number `num`, and a shuffle of it with its epidemic card extends
      the pieces built so far. */
  lemma PiecesStep(d: seq<Card>, s: nat, from: nat, num: nat, pieces: seq<seq<Card>>, piece: seq<Card>)
    requires s > 0 && from < |d| && AtChunk(d, s, from, num)
    requires |pieces| == num && PiecesMatch(Chunks(d, s), pieces)
    requires multiset(piece) == multiset(d[from..if from + s <= |d| then from + s else |d|] + [Epidemic(num)])
    ensures AtChunk(d, s, from + s, num + 1)
    ensures PiecesMatch(Chunks(d, s), pieces + [piece])
  {
    var chunks := Chunks(d, s);
    var chunk := d[from..if from + s <= |d| then from + s else |d|];
    ChunksFromNext(d, s, from);
    TailCons(chunks, num, chunk, ChunksFrom(d, s, from + s));
    PiecesMatchSnoc(chunks, pieces, piece);
  }

  lemma {:induction false} LayoutCardsFrom(cs: seq<seq<Card>>, pieces: seq<seq<Card>>, from: nat)
    requires |pieces| == |cs|
    requires forall k :: 0 <= k < |cs| ==> multiset(pieces[k]) == multiset(cs[k]) + multiset{Epidemic(from + k)}
    ensures multiset(Flatten(pieces)) == multiset(Flatten(cs)) + multiset(EpidemicsFrom(from, |cs|))
  {
    if |cs| > 0 {
      LayoutCardsFrom(cs[1..], pieces[1..], from + 1);
      var e := EpidemicsFrom(from, |cs|);
      assert e == [Epidemic(from)] + EpidemicsFrom(from + 1, |cs| - 1);
      calc {
        multiset(Flatten(pieces));
        multiset(pieces[0]) + multiset(Flatten(pieces[1..]));
        multiset(cs[0]) + multiset{Epidemic(from)}
          + multiset(Flatten(cs[1..])) + multiset(EpidemicsFrom(from + 1, |cs| - 1));
        multiset(Flatten(cs)) + multiset(e);
      }
    }
  }

  /** The deck `add_pandemic_cards` builds holds the original cards and one
      epidemic card per chunk, numbered 1 .. ceil(N / s); it is N + ceil(N / s)
      cards long. */
  lemma EpidemicDeckCards(d: seq<Card>, s: nat, pieces: seq<seq<Card>>)
    requires s > 0 && EpidemicLayout(d, s, pieces)
    ensures multiset(Flatten(pieces)) == multiset(d) + multiset(EpidemicsFrom(0, CeilDiv(|d|, s)))
    ensures |Flatten(pieces)| == |d| + CeilDiv(|d|, s)
  {
    var cs := Chunks(d, s);
    PiecesAddEpidemics(cs, pieces);
    LayoutCardsFrom(cs, pieces, 0);
    ChunksShape(d, s);
    assert |Flatten(pieces)| == |multiset(Flatten(pieces))|;
  }

  lemma PiecesAddEpidemics(cs: seq<seq<Card>>, pieces: seq<seq<Card>>)
    requires PiecesMatch(cs, pieces) && |pieces| == |cs|
    ensures forall k :: 0 <= k < |cs| ==> multiset(pieces[k]) == multiset(cs[k]) + multiset{Epidemic(0 + k)}
  {
    forall k | 0 <= k < |cs|
      ensures multiset(pieces[k]) == multiset(cs[k]) + multiset{Epidemic(0 + k)}
    {
      assert multiset(cs[k] + [Epidemic(k)]) == multiset(cs[k]) + multiset{Epidemic(k)};
    }
  }

  /** When the deck held no epidemic card, shuffled chunk k holds exactly one
      epidemic card, `[5, 6, k + 1]`, besides its own slice of the deck, so
      every epidemic stays inside its chunk's boundaries. */
  lemma EpidemicPerChunk(d: seq<Card>, s: nat, pieces: seq<seq<Card>>, k: nat)
    requires s > 0 && EpidemicLayout(d, s, pieces) && NoEpidemics(d)
    requires k < |pieces|
    ensures |pieces[k]| == |Chunks(d, s)[k]| + 1
    ensures multiset(pieces[k])[Epidemic(k)] == 1
    ensures forall c :: c in pieces[k] && c.EpidemicCard? ==> c == Epidemic(k)
  {
    var cs := Chunks(d, s);
    ChunksShape(d, s);
    var m := multiset(cs[k]) + multiset{Epidemic(k)};
    assert multiset(pieces[k]) == m by {
      assert multiset(cs[k] + [Epidemic(k)]) == m;
    }
    assert |pieces[k]| == |multiset(pieces[k])|;
    assert Epidemic(k) !in multiset(cs[k]) by {
      if Epidemic(k) in cs[k] {
        FlattenMember(cs, k, Epidemic(k));
      }
    }
    forall c | c in pieces[k] && c.EpidemicCard?
      ensures c == Epidemic(k)
    {
      assert c in m;
      if c in cs[k] {
        FlattenMember(cs, k, c);
      }
    }
  }

  /** With the default four epidemics, a 10-card deck rounds 10 / 4 = 2.5
      down to the even step 2 and is cut into five chunks: five epidemic
      cards, not four. */
  lemma TenCardsGiveFiveEpidemics(d: seq<Card>)
    requires |d| == 10
    ensures ChunkStep(|d|, 4) == Ok(2)
    ensures |Chunks(d, 2)| == 5
  {
    ChunksShape(d, 2);
  }

  // ---------------------------------------------------------------------
  // InfectionDeck.draw
  // ---------------------------------------------------------------------

  /** The effect of `InfectionDeck.draw(index)` on the deck and the infection
      discard pile, with the card it returns or the exception it raises. */
  datatype TwoPop<T> = TwoPop(drawn: Result<T>, deck: seq<T>, discards: seq<T>)

  /** `InfectionDeck.draw(index)`: the card `pop(index)` removes goes to the
      infection discard pile, then a second `pop(index)` removes the card that
      is returned. When the second pop fails, the first card stays discarded. */
  function DrawTwice<T>(deck: seq<T>, discards: seq<T>, index: Option<int>): (r: TwoPop<T>)
    ensures PopPosition(|deck|, index).None? ==>
              r.drawn == Err(IndexError) && r.deck == deck && r.discards == discards
    ensures PopPosition(|deck|, index).Some? ==>
              r.discards == discards + [deck[PopPosition(|deck|, index).value]]
    ensures PopPosition(|deck|, index).Some? && r.drawn.Err? ==> |r.deck| + 1 == |deck|
    ensures r.drawn.Ok? ==> PopPosition(|deck|, index).Some? && |r.deck| + 2 == |deck|
    ensures r.drawn.Ok? ==>
              multiset(r.deck) + multiset{r.discards[|discards|], r.drawn.value} == multiset(deck)
  {
    match Pop(deck, index)
    case Err(e) => TwoPop(Err(e), deck, discards)
    case Ok((first, rest)) =>
      match Pop(rest, index)
      case Err(e) => TwoPop(Err(e), rest, discards + [first])
      case Ok((second, rest')) => TwoPop(Ok(second), rest', discards + [first])
  }

  /** Without an index the draw discards the top (last) card and returns the
      one beneath it; it fails unless the deck holds two cards, and with one
      card that card still goes to the discard pile. */
  lemma DrawTwiceTop<T>(deck: seq<T>, discards: seq<T>)
    ensures var r := DrawTwice(deck, discards, None);
            && (r.drawn.Ok? <==> |deck| >= 2)
            && (|deck| >= 2 ==>
                  r.drawn.value == deck[|deck| - 2] && r.deck == deck[..|deck| - 2]
                  && r.discards == discards + [deck[|deck| - 1]])
            && (|deck| == 1 ==> r.deck == [] && r.discards == discards + deck)
  {
    if |deck| >= 1 {
      var rest := deck[..|deck| - 1];
      PopTop(deck);
      if |rest| >= 1 {
        PopTop(rest);
        assert rest[..|rest| - 1] == deck[..|deck| - 2];
      }
    }
  }

  // ---------------------------------------------------------------------
  // The deal of set_items
  // ---------------------------------------------------------------------

  /** The cards player `i` of `players` holds after `rounds` complete rounds
      of the deal, one card per player per round from the front of `d`. */
  function DealtRounds<T>(d: seq<T>, players: nat, i: nat, rounds: nat): (r: seq<T>)
    requires i < players && rounds * players <= |d|
    ensures |r| == rounds
  {
    if rounds == 0 then []
    else
      assert (rounds - 1) * players + players == rounds * players;
      DealtRounds(d, players, i, rounds - 1) + [d[(rounds - 1) * players + i]]
  }

  lemma MulMonotone(a: nat, b: nat, c: nat)
    requires a <= b
    ensures a * c <= b * c
  {
  }

  /** After `rounds` full rounds, card k of player i is the
      `k * players + i`-th card of the deck. */
  lemma {:induction false} DealtRoundsAt<T>(d: seq<T>, players: nat, i: nat, rounds: nat, k: nat)
    requires i < players && rounds * players <= |d| && k < rounds
    ensures k * players + i < |d|
    ensures DealtRounds(d, players, i, rounds)[k] == d[k * players + i]
  {
    MulMonotone(k + 1, rounds, players);
    assert (k + 1) * players == k * players + players;
    if k < rounds - 1 {
      assert (rounds - 1) * players + players == rounds * players;
      DealtRoundsAt(d, players, i, rounds - 1, k);
    }
  }

  /** The cards player `i` holds once `rounds` rounds are complete and the
      first `j` players have been served in the next round. */
  function Dealt<T>(d: seq<T>, players: nat, i: nat, rounds: nat, j: nat): (r: seq<T>)
    requires i < players && j <= players && rounds * players + j <= |d|
  {
    DealtRounds(d, players, i, rounds) + (if i < j then [d[rounds * players + i]] else [])
  }

  /** Serving the next player of the round adds the next card of the deck to
      that player's hand and to no other. */
  lemma DealtStep<T>(d: seq<T>, players: nat, i: nat, rounds: nat, j: nat)
    requires i < players && j < players && rounds * players + j < |d|
    ensures Dealt(d, players, i, rounds, j + 1)
            == Dealt(d, players, i, rounds, j) + (if i == j then [d[rounds * players + j]] else [])
  {
  }

  /** A completed round is the start of the next one. */
  lemma DealtRoundEnd<T>(d: seq<T>, players: nat, i: nat, rounds: nat)
    requires i < players && (rounds + 1) * players <= |d|
    ensures rounds * players + players == (rounds + 1) * players
    ensures Dealt(d, players, i, rounds, players) == Dealt(d, players, i, rounds + 1, 0)
  {
    assert rounds * players + players == (rounds + 1) * players;
  }

  // ---------------------------------------------------------------------
  // draw_states
  // ---------------------------------------------------------------------

  /** `draw_states`: the number of cards drawn per turn after a given number
      of epidemic pulls. */
  const DrawStates: map<int, nat> := map[0 := 2, 1 := 2, 2 := 2, 3 := 3, 4 := 3, 5 := 4, 6 := 4]

  /** `draw_states[epidemicpulls]`; a pull count outside 0..6 is a KeyError. */
  function DrawRequirement(pulls: int): (r: Result<nat>)
    ensures r.Ok? <==> 0 <= pulls <= 6
    ensures r.Err? ==> r.error == KeyError
    ensures r.Ok? ==> 2 <= r.value <= 4
  {
    if pulls in DrawStates then Ok(DrawStates[pulls]) else Err(KeyError)
  }

  /** More epidemic pulls never lower the draw count, and a new game draws 2. */
  lemma DrawRequirementMonotone(a: int, b: int)
    requires 0 <= a <= b <= 6
    ensures DrawRequirement(a).value <= DrawRequirement(b).value
    ensures DrawRequirement(0) == Ok(2)
  {
  }
}
