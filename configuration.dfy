/**
 * The start-up configuration grammar
 *   W <width> <height> F <foodX> <foodY> S <U|D|L|R> <n> (<x> <y>){n}
 * over an already tokenised stream, and the pure reading of it that the
 * controller's construction is proved against.
 */
module Configuration {
  import opened Wrappers
  import opened SnakeInterface
  import opened SnakeSegments

  /** A whitespace-separated token: a single character or an integer. */
  datatype Token = Sym(c: char) | Num(n: int)

  /**
   * `ConfigurationError` is the error the program throws. `MalformedConfig`
   * stands for a stream that runs short before a marker check fails, holds
   * a character where a number is read, or gives a negative segment count:
   * there the program goes on with an unset or zeroed value, which this
   * model does not follow.
   */
  datatype ConfigError = ConfigurationError | MalformedConfig

  datatype Config = Config(
    width: int, height: int,
    foodX: int, foodY: int,
    direction: Direction,
    segments: seq<Segment>)

  predicate IsSym(t: seq<Token>, i: nat)
  {
    i < |t| && t[i].Sym?
  }

  predicate IsNum(t: seq<Token>, i: nat)
  {
    i < |t| && t[i].Num?
  }

  /** The first character of an integer's decimal text. */
  function LeadingChar(n: int): (c: char)
    ensures c == '-' || '0' <= c <= '9'
    ensures n >= 0 ==> '0' <= c <= '9'
    decreases if n < 0 then 0 else n
  {
    if n < 0 then '-'
    else if n < 10 then ('0' as int + n) as char
    else LeadingChar(n / 10)
  }

  /**
   * The character a `char` extraction reads from a token: the token itself,
   * or the first character of a number, which is never a letter.
   */
  function CharOf(tok: Token): (c: char)
    ensures tok.Sym? ==> c == tok.c
    ensures tok.Num? ==> c == '-' || '0' <= c <= '9'
  {
    match tok
    case Sym(c) => c
    case Num(n) => LeadingChar(n)
  }

  /** Token i is present and reads as the character c. */
  predicate CharIs(t: seq<Token>, i: nat, c: char)
  {
    i < |t| && CharOf(t[i]) == c
  }

  /**
   * The stream reaches the marker F, S or the direction letter with the
   * markers before it right and the numbers in between present: only then
   * does the program's short-circuiting test look at that token.
   */
  predicate ReachesF(t: seq<Token>)
  {
    CharIs(t, 0, 'W') && IsNum(t, 1) && IsNum(t, 2) && 3 < |t|
  }

  predicate ReachesS(t: seq<Token>)
  {
    ReachesF(t) && CharIs(t, 3, 'F') && IsNum(t, 4) && IsNum(t, 5) && 6 < |t|
  }

  predicate ReachesDirection(t: seq<Token>)
  {
    ReachesS(t) && CharIs(t, 6, 'S') && 7 < |t|
  }

  /** The letter that names a heading in the configuration. */
  function Letter(d: Direction): char
  {
    match d
    case Up => 'U'
    case Down => 'D'
    case Left => 'L'
    case Right => 'R'
  }

  /** The heading a letter names, if any. */
  function DirectionOf(c: char): (r: Option<Direction>)
    ensures r.Some? <==> c in "UDLR"
    ensures r.Some? ==> Letter(r.value) == c
  {
    match c
    case 'U' => Some(Up)
    case 'D' => Some(Down)
    case 'L' => Some(Left)
    case 'R' => Some(Right)
    case _ => None
  }

  lemma DirectionLetterRoundTrip(d: Direction)
    ensures DirectionOf(Letter(d)) == Some(d)
  {
  }

  /** Pair number j of the coordinate list that starts at token k. */
  predicate PairOk(t: seq<Token>, k: nat, j: nat)
  {
    IsNum(t, k + 2 * j) && IsNum(t, k + 2 * j + 1)
  }

  function PairAt(t: seq<Token>, k: nat, j: nat): Segment
    requires PairOk(t, k, j)
  {
    Segment(t[k + 2 * j].n, t[k + 2 * j + 1].n)
  }

  /** Reads n coordinate pairs from token k on, keeping the order they appear in. */
  function ReadSegments(t: seq<Token>, k: nat, n: nat): (r: Option<seq<Segment>>)
    ensures r.Some? <==> forall j :: 0 <= j < n ==> PairOk(t, k, j)
    ensures r.Some? ==> |r.value| == n
    ensures r.Some? ==> forall j :: 0 <= j < n ==> r.value[j] == PairAt(t, k, j)
    decreases n
  {
    if n == 0 then Some([])
    else
      var front := ReadSegments(t, k, n - 1);
      if front.None? || !PairOk(t, k, n - 1) then None
      else Some(front.value + [PairAt(t, k, n - 1)])
  }

  /**
   * The whole configuration, checked in the order the program reads it.
   * A marker that is present and wrong, or a direction token that is not
   * one of U, D, L, R, is a configuration error; these are the only ones.
   */
  function Parse(t: seq<Token>): (r: Result<Config, ConfigError>)
    ensures |t| > 0 && CharOf(t[0]) != 'W' ==> r == Err(ConfigurationError)
    ensures ReachesF(t) && CharOf(t[3]) != 'F' ==> r == Err(ConfigurationError)
    ensures ReachesS(t) && CharOf(t[6]) != 'S' ==> r == Err(ConfigurationError)
    ensures ReachesDirection(t) && DirectionOf(CharOf(t[7])).None? ==> r == Err(ConfigurationError)
    ensures r == Err(ConfigurationError) ==>
              (|t| > 0 && CharOf(t[0]) != 'W') ||
              (ReachesF(t) && CharOf(t[3]) != 'F') ||
              (ReachesS(t) && CharOf(t[6]) != 'S') ||
              (ReachesDirection(t) && DirectionOf(CharOf(t[7])).None?)
    ensures r.Ok? ==>
              ReachesDirection(t) &&
              r.value.width == t[1].n && r.value.height == t[2].n &&
              r.value.foodX == t[4].n && r.value.foodY == t[5].n &&
              t[7] == Sym(Letter(r.value.direction)) &&
              IsNum(t, 8) && t[8].n == |r.value.segments| &&
              (forall j :: 0 <= j < |r.value.segments| ==> PairOk(t, 9, j)) &&
              forall j :: 0 <= j < |r.value.segments| ==> r.value.segments[j] == PairAt(t, 9, j)
    ensures ReachesDirection(t) && DirectionOf(CharOf(t[7])).Some? &&
            IsNum(t, 8) && t[8].n >= 0 && (forall j :: 0 <= j < t[8].n ==> PairOk(t, 9, j))
            ==> r.Ok?
  {
    if |t| == 0 then Err(MalformedConfig)
    else if CharOf(t[0]) != 'W' then Err(ConfigurationError)
    else if !(IsNum(t, 1) && IsNum(t, 2) && 3 < |t|) then Err(MalformedConfig)
    else if CharOf(t[3]) != 'F' then Err(ConfigurationError)
    else if !(IsNum(t, 4) && IsNum(t, 5) && 6 < |t|) then Err(MalformedConfig)
    else if CharOf(t[6]) != 'S' then Err(ConfigurationError)
    else if |t| <= 7 then Err(MalformedConfig)
    else match DirectionOf(CharOf(t[7]))
      case None => Err(ConfigurationError)
      case Some(d) =>
        if !IsNum(t, 8) || t[8].n < 0 then Err(MalformedConfig)
        else match ReadSegments(t, 9, t[8].n)
          case None => Err(MalformedConfig)
          case Some(segments) => Ok(Config(t[1].n, t[2].n, t[4].n, t[5].n, d, segments))
  }

  /** The configuration `W 10 10 F 5 5 S R 3 3 1 2 1 1 1`. */
  lemma ExampleConfiguration()
    ensures Parse([Sym('W'), Num(10), Num(10), Sym('F'), Num(5), Num(5), Sym('S'), Sym('R'),
                   Num(3), Num(3), Num(1), Num(2), Num(1), Num(1), Num(1)])
            == Ok(Config(10, 10, 5, 5, Right, [Segment(3, 1), Segment(2, 1), Segment(1, 1)]))
  {
    var t := [Sym('W'), Num(10), Num(10), Sym('F'), Num(5), Num(5), Sym('S'), Sym('R'),
              Num(3), Num(3), Num(1), Num(2), Num(1), Num(1), Num(1)];
    assert PairOk(t, 9, 0) && PairOk(t, 9, 1) && PairOk(t, 9, 2);
    assert forall j :: 0 <= j < 3 ==> PairOk(t, 9, j);
    var r := Parse(t);
    assert r.Ok?;
    assert r.value.segments == [PairAt(t, 9, 0), PairAt(t, 9, 1), PairAt(t, 9, 2)];
  }

  /**
   * Markers out of order, the direction letter X, a number where the first
   * marker belongs, or the digit 3 as direction are configuration errors;
   * so is a wrong marker in a stream that stops right after it.
   */
  lemma RejectedConfigurations()
    ensures Parse([Sym('F'), Num(5), Num(5), Sym('W'), Num(10), Num(10), Sym('S'), Sym('R'), Num(0)])
            == Err(ConfigurationError)
    ensures Parse([Sym('W'), Num(10), Num(10), Sym('F'), Num(5), Num(5), Sym('S'), Sym('X'), Num(0)])
            == Err(ConfigurationError)
    ensures Parse([Num(10), Num(10), Sym('F')]) == Err(ConfigurationError)
    ensures Parse([Sym('W'), Num(10), Num(10), Sym('F'), Num(5), Num(5), Sym('S'), Num(3), Num(0)])
            == Err(ConfigurationError)
    ensures Parse([Sym('X')]) == Err(ConfigurationError)
    ensures Parse([Sym('W'), Num(1), Num(1), Sym('X')]) == Err(ConfigurationError)
  {
  }
}
