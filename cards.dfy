// Playing cards: the two enumerations and the immutable (suit, rank) value.

module Cards {

  datatype Option<T> = None | Some(value: T)

  /** The four suits; a suit carries only its display glyph. */
  datatype Suit = HEARTS | DIAMONDS | CLUBS | SPADES

  /** The thirteen ranks, each with a fixed initial point value. */
  datatype Rank = TWO | THREE | FOUR | FIVE | SIX | SEVEN | EIGHT | NINE | TEN
                | JACK | QUEEN | KING | ACE

  /** An immutable card; `suit` and `rank` are its two getters. */
  datatype Card = Card(suit: Suit, rank: Rank)

  /** Number of suits and of ranks in one 52-card set. */
  const SUITS: nat := 4
  const RANKS: nat := 13

  /** The suit at position `k` of the enumeration (`Suit.values()[k]`). */
  function SuitOf(k: nat): (s: Suit)
    requires k < SUITS
    ensures SuitIndex(s) == k
  {
    if k == 0 then HEARTS else if k == 1 then DIAMONDS else if k == 2 then CLUBS else SPADES
  }

  /** The position of a suit in the enumeration (its ordinal). */
  function SuitIndex(s: Suit): (k: nat)
    ensures k < SUITS
  {
    match s
    case HEARTS => 0
    case DIAMONDS => 1
    case CLUBS => 2
    case SPADES => 3
  }

  /** The rank at position `k` of the enumeration (`Rank.values()[k]`). */
  function RankOf(k: nat): (r: Rank)
    requires k < RANKS
    ensures RankIndex(r) == k
  {
    if k == 0 then TWO else if k == 1 then THREE else if k == 2 then FOUR
    else if k == 3 then FIVE else if k == 4 then SIX else if k == 5 then SEVEN
    else if k == 6 then EIGHT else if k == 7 then NINE else if k == 8 then TEN
    else if k == 9 then JACK else if k == 10 then QUEEN else if k == 11 then KING
    else ACE
  }

  /** The position of a rank in the enumeration (its ordinal). */
  function RankIndex(r: Rank): (k: nat)
    ensures k < RANKS
  {
    match r
    case TWO => 0
    case THREE => 1
    case FOUR => 2
    case FIVE => 3
    case SIX => 4
    case SEVEN => 5
    case EIGHT => 6
    case NINE => 7
    case TEN => 8
    case JACK => 9
    case QUEEN => 10
    case KING => 11
    case ACE => 12
  }

  /** Initial point value of a rank: numerals at face value, faces 10, Ace 11. */
  function RankValue(r: Rank): (v: int)
    ensures 2 <= v <= 11
    ensures v == 11 <==> r == ACE
    ensures v == 10 <==> r in {TEN, JACK, QUEEN, KING}
  {
    match r
    case TWO => 2
    case THREE => 3
    case FOUR => 4
    case FIVE => 5
    case SIX => 6
    case SEVEN => 7
    case EIGHT => 8
    case NINE => 9
    case TEN => 10
    case JACK => 10
    case QUEEN => 10
    case KING => 10
    case ACE => 11
  }

  /** The card's initial point value, taken from its rank alone. */
  function Value(c: Card): (v: int)
    ensures v == RankValue(c.rank)
    ensures 2 <= v <= 11
  {
    RankValue(c.rank)
  }

  /** The suit does not affect the value. */
  lemma ValueIgnoresSuit(a: Card, b: Card)
    requires a.rank == b.rank
    ensures Value(a) == Value(b)
  {
  }

  /** The point values the card tests exercise. */
  lemma ValueExamples()
    ensures Value(Card(HEARTS, FIVE)) == 5
    ensures Value(Card(SPADES, KING)) == 10
    ensures Value(Card(DIAMONDS, ACE)) == 11
  {
  }

  /** The enumeration constant's name, as Java's `name()` spells it. */
  function RankName(r: Rank): string
  {
    match r
    case TWO => "TWO"
    case THREE => "THREE"
    case FOUR => "FOUR"
    case FIVE => "FIVE"
    case SIX => "SIX"
    case SEVEN => "SEVEN"
    case EIGHT => "EIGHT"
    case NINE => "NINE"
    case TEN => "TEN"
    case JACK => "JACK"
    case QUEEN => "QUEEN"
    case KING => "KING"
    case ACE => "ACE"
  }

  /** The Unicode glyph shown for a suit. */
  function Glyph(s: Suit): char
  {
    match s
    case HEARTS => '\U{2665}'
    case DIAMONDS => '\U{2666}'
    case CLUBS => '\U{2663}'
    case SPADES => '\U{2660}'
  }

  /** Display form: rank name, one space, suit glyph (e.g. "ACE ♥"). */
  function ToString(c: Card): (s: string)
    ensures |s| == |RankName(c.rank)| + 2
    ensures s[..|s| - 2] == RankName(c.rank)
    ensures s[|s| - 2] == ' ' && s[|s| - 1] == Glyph(c.suit)
  {
    RankName(c.rank) + " " + [Glyph(c.suit)]
  }

  /** Reads a rank back from its name. */
  function ParseRank(name: string): (r: Option<Rank>)
    ensures r.Some? ==> RankName(r.value) == name
  {
    if name == "TWO" then Some(TWO)
    else if name == "THREE" then Some(THREE)
    else if name == "FOUR" then Some(FOUR)
    else if name == "FIVE" then Some(FIVE)
    else if name == "SIX" then Some(SIX)
    else if name == "SEVEN" then Some(SEVEN)
    else if name == "EIGHT" then Some(EIGHT)
    else if name == "NINE" then Some(NINE)
    else if name == "TEN" then Some(TEN)
    else if name == "JACK" then Some(JACK)
    else if name == "QUEEN" then Some(QUEEN)
    else if name == "KING" then Some(KING)
    else if name == "ACE" then Some(ACE)
    else None
  }

  /** Reads a suit back from its glyph. */
  function ParseGlyph(g: char): (s: Option<Suit>)
    ensures s.Some? ==> Glyph(s.value) == g
  {
    if g == '\U{2665}' then Some(HEARTS)
    else if g == '\U{2666}' then Some(DIAMONDS)
    else if g == '\U{2663}' then Some(CLUBS)
    else if g == '\U{2660}' then Some(SPADES)
    else None
  }

  /** The inverse of `ToString`, used to prove the display form injective. */
  function ParseCard(s: string): (r: Option<Card>)
    ensures r.Some? ==> ToString(r.value) == s
  {
    if |s| < 2 || s[|s| - 2] != ' ' then None
    else
      match (ParseRank(s[..|s| - 2]), ParseGlyph(s[|s| - 1]))
      case (Some(rank), Some(suit)) =>
        assert s == s[..|s| - 2] + " " + [s[|s| - 1]];
        Some(Card(suit, rank))
      case _ => None
  }

  lemma ParseRankName(r: Rank)
    ensures ParseRank(RankName(r)) == Some(r)
  {
  }

  /** The display form loses nothing: parsing it gives the card back. */
  lemma ParseToString(c: Card)
    ensures ParseCard(ToString(c)) == Some(c)
  {
    var s := ToString(c);
    ParseRankName(c.rank);
    assert s[..|s| - 2] == RankName(c.rank);
  }

  /** Hence two different cards never display alike. */
  lemma ToStringInjective(a: Card, b: Card)
    requires ToString(a) == ToString(b)
    ensures a == b
  {
    ParseToString(a);
    ParseToString(b);
  }

  /** A TEN's display form contains "TEN" (at its start). */
  lemma TenShowsName(s: Suit)
    ensures ToString(Card(s, TEN))[..3] == "TEN"
  {
  }
}
