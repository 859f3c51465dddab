/** The belief states of the memory map and the character code table that names them. */
module Tiles {
  import opened Wrappers

  /** The closed enumeration `TileValue`, in the source's declaration order. */
  datatype TileValue =
    | Unknown
    | PotentialFood
    | Food
    | Wall
    | Rock
    | Key
    | Hammer
    | Door
    | Agent
    | Nothing

  /** A grid coordinate (`java.awt.Point` reduced to its two fields). */
  datatype Point = Point(x: int, y: int)

  /** A read-only snapshot of one cell. */
  datatype Tile = Tile(x: int, y: int, value: TileValue)

  const UnknownChar: char := 'u'
  const PotentialFoodChar: char := 'p'
  const FoodChar: char := '+'
  const WallChar: char := '*'
  const RockChar: char := '@'
  const DoorChar: char := '#'
  const KeyChar: char := 'K'
  const HammerChar: char := 'T'
  const AgentChar: char := '0'

  /** The nine characters of the code table. */
  const CodeChars: set<char> :=
    {UnknownChar, PotentialFoodChar, FoodChar, WallChar, RockChar, DoorChar, KeyChar, HammerChar, AgentChar}

  /** The canonical character of a belief state, as given by the character constants;
      `Nothing` has none. */
  function CharOf(v: TileValue): Option<char>
  {
    match v
    case Unknown => Some(UnknownChar)
    case PotentialFood => Some(PotentialFoodChar)
    case Food => Some(FoodChar)
    case Wall => Some(WallChar)
    case Rock => Some(RockChar)
    case Key => Some(KeyChar)
    case Hammer => Some(HammerChar)
    case Door => Some(DoorChar)
    case Agent => Some(AgentChar)
    case Nothing => None
  }

  /** `getValueFromChar`: decodes a sensor character; every other character yields `None`
      (the source's `null`). A decoded state always has the decoded character as its canonical
      character, and an undecodable character is the canonical character of no state. */
  function ValueFromChar(c: char): (r: Option<TileValue>)
    ensures r.Some? ==> CharOf(r.value) == Some(c)
    ensures r.None? ==> forall v :: CharOf(v) != Some(c)
  {
    if c == PotentialFoodChar then Some(PotentialFood)
    else if c == UnknownChar then Some(Unknown)
    else if c == FoodChar then Some(Food)
    else if c == WallChar then Some(Wall)
    else if c == RockChar then Some(Rock)
    else if c == DoorChar then Some(Door)
    else if c == KeyChar then Some(Key)
    else if c == HammerChar then Some(Hammer)
    else if c == AgentChar then Some(Agent)
    else None
  }

  /** Every belief state but `Nothing` has a code character, and each is one of the nine. */
  lemma CodedStates(v: TileValue)
    ensures CharOf(v).None? <==> v == Nothing
    ensures CharOf(v).Some? ==> CharOf(v).value in CodeChars
  {
  }

  /** Decoding and the canonical characters are inverse to each other, both ways. */
  lemma CodeTableRoundTrip(c: char, v: TileValue)
    ensures ValueFromChar(c) == Some(v) <==> CharOf(v) == Some(c)
  {
    if CharOf(v) == Some(c) {
      match v
      case Unknown =>
      case PotentialFood =>
      case Food =>
      case Wall =>
      case Rock =>
      case Key =>
      case Hammer =>
      case Door =>
      case Agent =>
    }
  }

  /** Exactly the nine code characters decode, and no two of them decode to the same state. */
  lemma CodeTableExact(c: char, d: char)
    ensures ValueFromChar(c).Some? <==> c in CodeChars
    ensures |CodeChars| == 9
    ensures ValueFromChar(c).Some? && ValueFromChar(c) == ValueFromChar(d) ==> c == d
  {
  }

  /** No character decodes to `Nothing`: "observed empty" only comes from the `)` marker. */
  lemma NothingHasNoCode(c: char)
    ensures ValueFromChar(c) != Some(Nothing)
  {
  }
}
