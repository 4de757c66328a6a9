/**
 * The snake's body: direction classification helpers and the
 * `SnakeSegments` object holding the segment list, the heading and the
 * `length` counter.
 */
module SnakeSegments {
  import opened SnakeInterface

  /** One occupied cell. */
  datatype Segment = Segment(x: int, y: int)

  /** LEFT and RIGHT are horizontal; every heading is on exactly one axis. */
  function IsHorizontal(d: Direction): (r: bool)
    ensures r <==> !IsVertical(d)
  {
    d == Left || d == Right
  }

  function IsVertical(d: Direction): bool
  {
    d == Up || d == Down
  }

  /** A heading is positive when it increases its axis' coordinate. */
  function IsPositive(d: Direction): (r: bool)
    ensures r <==> (d == Down || d == Right)
  {
    (IsVertical(d) && d == Down) || (IsHorizontal(d) && d == Right)
  }

  /** Two headings are perpendicular when exactly one of them is horizontal. */
  function Perpendicular(d1: Direction, d2: Direction): (r: bool)
    ensures r <==> IsHorizontal(d1) != IsHorizontal(d2)
  {
    IsHorizontal(d1) == IsVertical(d2)
  }

  /** The reverse heading; not part of the program, used to state the turn rule. */
  function Opposite(d: Direction): (r: Direction)
    ensures r != d && IsHorizontal(r) == IsHorizontal(d)
    ensures IsPositive(r) != IsPositive(d)
  {
    match d
    case Up => Down
    case Down => Up
    case Left => Right
    case Right => Left
  }

  lemma PerpendicularIsSymmetric(d1: Direction, d2: Direction)
    ensures Perpendicular(d1, d2) == Perpendicular(d2, d1)
  {
  }

  lemma NotPerpendicularToItself(d: Direction)
    ensures !Perpendicular(d, d)
  {
  }

  lemma NotPerpendicularToOpposite(d: Direction)
    ensures !Perpendicular(d, Opposite(d))
  {
  }

  /** No coordinate occurs twice in the body. */
  ghost predicate NoRepeats(s: seq<Segment>)
  {
    forall i, j :: 0 <= i < j < |s| ==> s[i] != s[j]
  }

  class SnakeSegments {
    var segments: seq<Segment>
    var currentDirection: Direction
    var length: int

    /** The heading is left unset, as in the source; only `length` is initialised. */
    constructor ()
      ensures segments == [] && length == 0
    {
      segments := [];
      length := 0;
    }

    method SetDirection(d: Direction)
      modifies this`currentDirection
      ensures currentDirection == d
    {
      currentDirection := d;
    }

    /** Appends at the back; `length` is outside the frame, so it is not counted. */
    method SetSegment(newX: int, newY: int)
      modifies this`segments
      ensures segments == old(segments) + [Segment(newX, newY)]
    {
      segments := segments + [Segment(newX, newY)];
    }

    /** The cell one step from the head along the current heading. */
    function CalculateNewHead(): (h: Segment)
      reads this
      requires |segments| > 0
      ensures currentDirection == Right ==> h == Segment(segments[0].x + 1, segments[0].y)
      ensures currentDirection == Left ==> h == Segment(segments[0].x - 1, segments[0].y)
      ensures currentDirection == Down ==> h == Segment(segments[0].x, segments[0].y + 1)
      ensures currentDirection == Up ==> h == Segment(segments[0].x, segments[0].y - 1)
      ensures (h.x == segments[0].x) != (h.y == segments[0].y)
    {
      var head := segments[0];
      var dx := if IsHorizontal(currentDirection) then (if IsPositive(currentDirection) then 1 else -1) else 0;
      var dy := if IsVertical(currentDirection) then (if IsPositive(currentDirection) then 1 else -1) else 0;
      Segment(head.x + dx, head.y + dy)
    }
  }

  /** Pushing a head that is not on the body keeps the body free of repeats. */
  lemma PushFrontKeepsNoRepeats(s: seq<Segment>, h: Segment)
    requires NoRepeats(s)
    requires forall i :: 0 <= i < |s| ==> s[i] != h
    ensures NoRepeats([h] + s)
  {
  }

  /** Dropping the tail keeps the body free of repeats. */
  lemma DropLastKeepsNoRepeats(s: seq<Segment>)
    requires NoRepeats(s) && |s| > 0
    ensures NoRepeats(s[..|s| - 1])
  {
  }
}
