/**
 * The controller: the event handler that owns the snake's body, the map
 * dimension, the food position and the paused flag, and reports what it
 * does as messages sent on the display, food and score ports.
 */
module SnakeController {
  import opened Wrappers
  import opened SnakeInterface
  import opened SnakeSegments
  import opened Configuration

  /**
   * Index of the first segment at (x, y), or |segments| when there is
   * none: the iterator `std::find_if` returns, as a position.
   */
  function FindSegment(segments: seq<Segment>, x: int, y: int): (i: nat)
    ensures i <= |segments|
    ensures i < |segments| ==> segments[i] == Segment(x, y)
    ensures forall j :: 0 <= j < i ==> segments[j] != Segment(x, y)
  {
    if segments == [] then 0
    else if segments[0].x == x && segments[0].y == y then 0
    else 1 + FindSegment(segments[1..], x, y)
  }

  /** Every field of the controller and its body, apart from the output log. */
  datatype View = View(
    segments: seq<Segment>,
    direction: Direction,
    length: int,
    mapDimension: (int, int),
    foodPosition: (int, int),
    paused: bool)

  class Controller {
    const body: SnakeSegments
    var mapDimension: (int, int)
    var foodPosition: (int, int)
    var paused: bool
    /** Everything sent on the three ports, oldest first. */
    ghost var sent: seq<Sent>

    function Snapshot(): View
      reads this, body
    {
      View(body.segments, body.currentDirection, body.length, mapDimension, foodPosition, paused)
    }

    /** (x, y) lies on the map. */
    predicate InMap(x: int, y: int)
      reads this
    {
      0 <= x < mapDimension.0 && 0 <= y < mapDimension.1
    }

    /**
     * The state a running game keeps: a non-empty body without repeated
     * cells, lying on the map, and food on the map.
     */
    ghost predicate Consistent()
      reads this, body
    {
      |body.segments| > 0 && NoRepeats(body.segments) &&
      (forall i :: 0 <= i < |body.segments| ==> InMap(body.segments[i].x, body.segments[i].y)) &&
      InMap(foodPosition.0, foodPosition.1)
    }

    /** The member initialisers: a fresh, empty body and an unpaused game. */
    constructor ()
      ensures fresh(body) && body.segments == [] && body.length == 0
      ensures !paused && sent == []
    {
      body := new SnakeSegments();
      paused := false;
      sent := [];
    }

    /**
     * Builds a controller from a configuration stream. Fails exactly when
     * `Parse` does, with the same error; on success the fields hold what
     * `Parse` read, the game is not paused, nothing has been sent, and
     * `length` is still 0 whatever the number of segments.
     */
    static method Create(tokens: seq<Token>) returns (r: Result<Controller, ConfigError>)
      ensures r.Err? <==> Parse(tokens).Err?
      ensures r.Err? ==> r.error == Parse(tokens).error
      ensures r.Ok? ==>
                var c, cfg := r.value, Parse(tokens).value;
                fresh(c) && fresh(c.body) &&
                c.mapDimension == (cfg.width, cfg.height) &&
                c.foodPosition == (cfg.foodX, cfg.foodY) &&
                c.body.currentDirection == cfg.direction &&
                c.body.segments == cfg.segments &&
                c.body.length == 0 && !c.paused && c.sent == []
    {
      var c := new Controller();
      // The marker test of SnakeController.cpp:30 short-circuits: a wrong
      // marker is reported without the tokens after it being looked at.
      if |tokens| == 0 {
        return Err(MalformedConfig);
      }
      var w := CharOf(tokens[0]);
      var markersOk := w == 'W';
      if markersOk {
        if !(IsNum(tokens, 1) && IsNum(tokens, 2) && 3 < |tokens|) {
          return Err(MalformedConfig);
        }
        var f := CharOf(tokens[3]);
        markersOk := f == 'F';
        if markersOk {
          if !(IsNum(tokens, 4) && IsNum(tokens, 5) && 6 < |tokens|) {
            return Err(MalformedConfig);
          }
          var s := CharOf(tokens[6]);
          markersOk := s == 'S';
        }
      }
      if markersOk {
        var width, height := tokens[1].n, tokens[2].n;
        var foodX, foodY := tokens[4].n, tokens[5].n;
        c.mapDimension := (width, height);
        c.foodPosition := (foodX, foodY);
        if |tokens| <= 7 {
          return Err(MalformedConfig);
        }
        match CharOf(tokens[7]) {
          case 'U' => c.body.SetDirection(Up);
          case 'D' => c.body.SetDirection(Down);
          case 'L' => c.body.SetDirection(Left);
          case 'R' => c.body.SetDirection(Right);
          case _ => return Err(ConfigurationError);
        }
        if !IsNum(tokens, 8) || tokens[8].n < 0 {
          return Err(MalformedConfig);
        }
        var count: nat := tokens[8].n;
        var length := count;
        var i := 0;
        while length > 0
          invariant 0 <= length <= count && i == count - length
          invariant |c.body.segments| == i
          invariant forall j :: 0 <= j < i ==> PairOk(tokens, 9, j) && c.body.segments[j] == PairAt(tokens, 9, j)
          invariant c.body.currentDirection == DirectionOf(CharOf(tokens[7])).value
          invariant c.body.length == 0 && !c.paused && c.sent == []
          invariant c.mapDimension == (width, height) && c.foodPosition == (foodX, foodY)
        {
          if !PairOk(tokens, 9, i) {
            return Err(MalformedConfig);
          }
          c.body.SetSegment(tokens[9 + 2 * i].n, tokens[9 + 2 * i + 1].n);
          length := length - 1;
          i := i + 1;
        }
        return Ok(c);
      } else {
        return Err(ConfigurationError);
      }
    }

    /** Some segment, the tail included, is at (x, y). */
    function IsSegmentAtPosition(x: int, y: int): (r: bool)
      reads body
      ensures r <==> exists i :: 0 <= i < |body.segments| && body.segments[i] == Segment(x, y)
    {
      FindSegment(body.segments, x, y) != |body.segments|
    }

    function IsPositionOutsideMap(x: int, y: int): (r: bool)
      reads this
      ensures r <==> !InMap(x, y)
    {
      x < 0 || y < 0 || x >= mapDimension.0 || y >= mapDimension.1
    }

    method SendPlaceNewFood(x: int, y: int)
      modifies this`foodPosition, this`sent
      ensures foodPosition == (x, y)
      ensures sent == old(sent) + [Display(x, y, Food)]
    {
      foodPosition := (x, y);
      sent := sent + [Display(x, y, Food)];
    }

    method SendClearOldFood()
      modifies this`sent
      ensures sent == old(sent) + [Display(foodPosition.0, foodPosition.1, Free)]
    {
      sent := sent + [Display(foodPosition.0, foodPosition.1, Free)];
    }

    /** Frees the tail cell and drops it; `length` is not decremented. */
    method RemoveTailSegment()
      requires |body.segments| > 0
      modifies this`sent, body`segments
      ensures body.segments == old(body.segments)[..|old(body.segments)| - 1]
      ensures var tail := old(body.segments)[|old(body.segments)| - 1];
              sent == old(sent) + [Display(tail.x, tail.y, Free)]
    {
      var tail := body.segments[|body.segments| - 1];
      sent := sent + [Display(tail.x, tail.y, Free)];
      body.segments := body.segments[..|body.segments| - 1];
    }

    /** Pushes the new head at the front, counts it in `length` and draws it. */
    method AddHeadSegment(newHead: Segment)
      modifies this`sent, body`segments, body`length
      ensures body.segments == [newHead] + old(body.segments)
      ensures body.length == old(body.length) + 1
      ensures sent == old(sent) + [Display(newHead.x, newHead.y, Snake)]
    {
      body.segments := [newHead] + body.segments;
      body.length := body.length + 1;
      sent := sent + [Display(newHead.x, newHead.y, Snake)];
    }

    /** On the food: score and ask for new food; elsewhere: drop the tail. */
    method RemoveTailSegmentIfNotScored(newHead: Segment)
      requires |body.segments| > 0
      modifies this`sent, body`segments
      ensures (newHead.x, newHead.y) == foodPosition ==>
                body.segments == old(body.segments) &&
                sent == old(sent) + [Sent(ScorePort, ScoreInd), Sent(FoodPort, FoodReq)]
      ensures (newHead.x, newHead.y) != foodPosition ==>
                var tail := old(body.segments)[|old(body.segments)| - 1];
                body.segments == old(body.segments)[..|old(body.segments)| - 1] &&
                sent == old(sent) + [Display(tail.x, tail.y, Free)]
    {
      if (newHead.x, newHead.y) == foodPosition {
        sent := sent + [Sent(ScorePort, ScoreInd)];
        sent := sent + [Sent(FoodPort, FoodReq)];
      } else {
        RemoveTailSegment();
      }
    }

    /**
     * An illegal move (onto the body or off the map) only reports the
     * loss; a legal one adds the head, then scores or drops the tail.
     */
    method UpdateSegmentsIfSuccessfullMove(newHead: Segment)
      modifies this`sent, body`segments, body`length
      ensures old(IsSegmentAtPosition(newHead.x, newHead.y) || IsPositionOutsideMap(newHead.x, newHead.y)) ==>
                body.segments == old(body.segments) && body.length == old(body.length) &&
                sent == old(sent) + [Sent(ScorePort, LooseInd)]
      ensures !old(IsSegmentAtPosition(newHead.x, newHead.y) || IsPositionOutsideMap(newHead.x, newHead.y)) ==>
                body.length == old(body.length) + 1 &&
                if (newHead.x, newHead.y) == foodPosition then
                  body.segments == [newHead] + old(body.segments) &&
                  sent == old(sent) + [Display(newHead.x, newHead.y, Snake),
                                       Sent(ScorePort, ScoreInd), Sent(FoodPort, FoodReq)]
                else
                  var grown := [newHead] + old(body.segments);
                  var tail := grown[|grown| - 1];
                  body.segments == grown[..|grown| - 1] &&
                  sent == old(sent) + [Display(newHead.x, newHead.y, Snake), Display(tail.x, tail.y, Free)]
    {
      if IsSegmentAtPosition(newHead.x, newHead.y) || IsPositionOutsideMap(newHead.x, newHead.y) {
        sent := sent + [Sent(ScorePort, LooseInd)];
      } else {
        AddHeadSegment(newHead);
        RemoveTailSegmentIfNotScored(newHead);
      }
    }

    method HandleTimeoutInd()
      requires |body.segments| > 0
      modifies this`sent, body`segments, body`length
      ensures var h := old(body.CalculateNewHead());
              if old(IsSegmentAtPosition(h.x, h.y) || IsPositionOutsideMap(h.x, h.y)) then
                body.segments == old(body.segments) && body.length == old(body.length) &&
                sent == old(sent) + [Sent(ScorePort, LooseInd)]
              else
                body.length == old(body.length) + 1 &&
                if (h.x, h.y) == foodPosition then
                  body.segments == [h] + old(body.segments) &&
                  sent == old(sent) + [Display(h.x, h.y, Snake), Sent(ScorePort, ScoreInd), Sent(FoodPort, FoodReq)]
                else
                  var tail := old(body.segments)[|old(body.segments)| - 1];
                  body.segments == [h] + old(body.segments)[..|old(body.segments)| - 1] &&
                  sent == old(sent) + [Display(h.x, h.y, Snake), Display(tail.x, tail.y, Free)]
    {
      UpdateSegmentsIfSuccessfullMove(body.CalculateNewHead());
    }

    /** Only a perpendicular turn is taken. */
    method HandleDirectionInd(direction: Direction)
      modifies body`currentDirection
      ensures body.currentDirection ==
              if Perpendicular(old(body.currentDirection), direction) then direction
              else old(body.currentDirection)
    {
      if Perpendicular(body.currentDirection, direction) {
        body.currentDirection := direction;
      }
    }

    /**
     * A candidate on the body or off the map is answered by a new food
     * request; otherwise the old food cell is cleared when `clearOldFood`
     * holds, and the candidate becomes the food.
     */
    method UpdateFoodPosition(x: int, y: int, clearOldFood: bool)
      modifies this`foodPosition, this`sent
      ensures old(IsSegmentAtPosition(x, y) || IsPositionOutsideMap(x, y)) ==>
                foodPosition == old(foodPosition) && sent == old(sent) + [Sent(FoodPort, FoodReq)]
      ensures !old(IsSegmentAtPosition(x, y) || IsPositionOutsideMap(x, y)) ==>
                foodPosition == (x, y) &&
                sent == old(sent) +
                        (if clearOldFood then [Display(old(foodPosition).0, old(foodPosition).1, Free)] else []) +
                        [Display(x, y, Food)]
    {
      if IsSegmentAtPosition(x, y) || IsPositionOutsideMap(x, y) {
        sent := sent + [Sent(FoodPort, FoodReq)];
        return;
      }
      if clearOldFood {
        SendClearOldFood();
      }
      SendPlaceNewFood(x, y);
    }

    method HandleFoodInd(x: int, y: int)
      modifies this`foodPosition, this`sent
      ensures old(IsSegmentAtPosition(x, y) || IsPositionOutsideMap(x, y)) ==>
                foodPosition == old(foodPosition) && sent == old(sent) + [Sent(FoodPort, FoodReq)]
      ensures !old(IsSegmentAtPosition(x, y) || IsPositionOutsideMap(x, y)) ==>
                foodPosition == (x, y) &&
                sent == old(sent) + [Display(old(foodPosition).0, old(foodPosition).1, Free), Display(x, y, Food)]
    {
      UpdateFoodPosition(x, y, true);
    }

    method HandleFoodResp(x: int, y: int)
      modifies this`foodPosition, this`sent
      ensures old(IsSegmentAtPosition(x, y) || IsPositionOutsideMap(x, y)) ==>
                foodPosition == old(foodPosition) && sent == old(sent) + [Sent(FoodPort, FoodReq)]
      ensures !old(IsSegmentAtPosition(x, y) || IsPositionOutsideMap(x, y)) ==>
                foodPosition == (x, y) && sent == old(sent) + [Display(x, y, Food)]
    {
      UpdateFoodPosition(x, y, false);
    }

    method HandlePauseInd()
      modifies this`paused
      ensures paused == !old(paused)
    {
      paused := !paused;
    }

    /**
     * Dispatches one event. Timeout and direction events are ignored while
     * paused; food, food responses and pause toggles are handled in either
     * state; an unknown event changes nothing and is reported as
     * `UnexpectedEventException`. A consistent game stays consistent.
     */
    method Receive(e: Event) returns (r: Outcome)
      requires e.TimeoutInd? && !paused ==> |body.segments| > 0
      modifies this, body
      ensures r == if e.Unknown? then UnexpectedEventException else Handled
      ensures e.Unknown? || ((e.TimeoutInd? || e.DirectionInd?) && old(paused)) ==>
                Snapshot() == old(Snapshot()) && sent == old(sent)
      ensures e.PauseInd? ==>
                Snapshot() == old(Snapshot()).(paused := !old(paused)) && sent == old(sent)
      ensures e.DirectionInd? && !old(paused) ==>
                sent == old(sent) &&
                Snapshot() == old(Snapshot()).(direction :=
                  if Perpendicular(old(body.currentDirection), e.direction) then e.direction
                  else old(body.currentDirection))
      ensures e.FoodInd? || e.FoodResp? ==>
                if old(IsSegmentAtPosition(e.x, e.y) || IsPositionOutsideMap(e.x, e.y)) then
                  Snapshot() == old(Snapshot()) && sent == old(sent) + [Sent(FoodPort, FoodReq)]
                else
                  Snapshot() == old(Snapshot()).(foodPosition := (e.x, e.y)) &&
                  sent == old(sent) +
                          (if e.FoodInd? then [Display(old(foodPosition).0, old(foodPosition).1, Free)] else []) +
                          [Display(e.x, e.y, Food)]
      ensures e.TimeoutInd? && !old(paused) ==>
                var h := old(body.CalculateNewHead());
                if old(IsSegmentAtPosition(h.x, h.y) || IsPositionOutsideMap(h.x, h.y)) then
                  Snapshot() == old(Snapshot()) && sent == old(sent) + [Sent(ScorePort, LooseInd)]
                else if (h.x, h.y) == foodPosition then
                  Snapshot() == old(Snapshot()).(segments := [h] + old(body.segments), length := old(body.length) + 1) &&
                  sent == old(sent) + [Display(h.x, h.y, Snake), Sent(ScorePort, ScoreInd), Sent(FoodPort, FoodReq)]
                else
                  var tail := old(body.segments)[|old(body.segments)| - 1];
                  Snapshot() == old(Snapshot()).(segments := [h] + old(body.segments)[..|old(body.segments)| - 1],
                                                 length := old(body.length) + 1) &&
                  sent == old(sent) + [Display(h.x, h.y, Snake), Display(tail.x, tail.y, Free)]
      ensures old(Consistent()) ==> Consistent()
    {
      match e {
        case TimeoutInd =>
          if !paused {
            ghost var before := body.segments;
            HandleTimeoutInd();
            if old(Consistent()) && body.segments != before {
              var h := old(body.CalculateNewHead());
              PushFrontKeepsNoRepeats(before, h);
              if |body.segments| == |before| {
                DropLastKeepsNoRepeats([h] + before);
                assert body.segments == ([h] + before)[..|before|];
              }
            }
          }
          r := Handled;
        case DirectionInd(d) =>
          if !paused {
            HandleDirectionInd(d);
          }
          r := Handled;
        case FoodInd(x, y) =>
          HandleFoodInd(x, y);
          r := Handled;
        case FoodResp(x, y) =>
          HandleFoodResp(x, y);
          r := Handled;
        case PauseInd =>
          HandlePauseInd();
          r := Handled;
        case Unknown(_) =>
          r := UnexpectedEventException;
      }
    }
  }
}
