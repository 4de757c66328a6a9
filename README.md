# Snake controller rule engine, modelled in Dafny

This project models the rule engine of a grid snake game. The `Snake::Controller`
owns the snake's body (`SnakeSegments`), the map dimension, the food position and
a paused flag. It is built from a configuration string
`W w h F fx fy S d n (x y)*n`. It then handles one inbound event at a time:
timeout ticks, direction changes, food proposals, food responses and pause
toggles. Its answers are messages sent on three ports: display, food and score.

Modules, leaf first:

- `Wrappers` gives `Option` and `Result` for the error paths.
- `SnakeInterface` holds the message vocabulary. It has the four headings, the
  display cell values, the three ports, the outbound messages (`DisplayInd`,
  `ScoreInd`, `LooseInd`, `FoodReq`) and the inbound events. An `Unknown` case
  stands for every message id the controller does not recognise.
- `SnakeSegments` holds the direction helpers and the class `SnakeSegments`. The
  class has the segment list (head first), the heading and the `length` counter.
- `Configuration` holds the configuration grammar over a stream that is already
  split into tokens. `Parse` is the pure reading that construction is proved
  against.
- `SnakeController` holds the class `Controller`. Each handler of the source is a
  method, the two queries are functions, and `Receive` is the dispatcher.

`SnakeWorld`'s dimension and food fields are folded into `Controller` as
`mapDimension` and `foodPosition`. Each `port.send` becomes an append of
`Sent(port, message)` to the ghost log `sent`. So the ordering of messages, across
ports too, is stated as equalities on that log. The C++ constructor can throw, so
it becomes the static method `Create`, which returns
`Result<Controller, ConfigError>`. The member initialisers are the plain
`constructor`.

Proved beyond the per-call contracts:

- `Consistent()` is preserved by every event `Receive` handles. It says the body
  is non-empty, has no repeated cell and lies on the map, and the food lies on
  the map.
- `Create` agrees with `Parse` on every token stream, including which error is
  returned.

## Notes on the code

- `length` is not the segment count. Only `addHeadSegment` increments it
  (SnakeController/SnakeController.cpp:119). `setSegment` never does, so after
  `Create` it is 0 whatever `n` is, and `removeTailSegment` never decrements it.
  So `length` counts legal moves since construction. The contracts state exactly
  this, and nothing relates `length` to `|segments|`.
- A loss sends only `LooseInd`. The 0 written to `scrInd.value`
  (SnakeController/SnakeController.cpp:143) is never sent.
- Nothing halts or resets after a loss. Later ticks are handled against the same
  body, which is what `Receive` states.
- The marker test (SnakeController/SnakeController.cpp:30) short-circuits. A
  wrong `W` is a configuration error whatever follows it, and so is a wrong `F`
  once `W` and the two numbers were read. A number read where a letter belongs
  yields its first character, which is never a marker or a direction letter.

## Model

| member | source | states |
|---|---|---|
| `SnakeSegments.IsHorizontal` | SnakeController/SnakeSegments.hpp:8-16 | `IsHorizontal` (LEFT, RIGHT) holds exactly when `IsVertical` (UP, DOWN; SnakeSegments.hpp:13-16) does not, so each heading lies on exactly one axis |
| `SnakeSegments.IsPositive` | SnakeController/SnakeSegments.hpp:18-22 | positive exactly for DOWN and RIGHT |
| `SnakeSegments.Perpendicular` | SnakeController/SnakeSegments.hpp:24-27 | holds exactly when one of the two headings is horizontal and the other is not |
| `SnakeSegments.PerpendicularIsSymmetric` | SnakeController/SnakeSegments.hpp:24-27 | perpendicularity is symmetric |
| `SnakeSegments.NotPerpendicularToItself` | SnakeController/SnakeSegments.hpp:24-27 | no heading is perpendicular to itself, so a repeated heading is never a turn |
| `SnakeSegments.NotPerpendicularToOpposite` | SnakeController/SnakeSegments.hpp:24-27 | no heading is perpendicular to its reverse, so the snake can never turn back onto its neck |
| `SnakeSegments.SnakeSegments.constructor` | SnakeController/SnakeSegments.hpp:35 | empty body with `length` 0; the heading is left unset |
| `SnakeSegments.SnakeSegments.SetDirection` | SnakeController/SnakeSegments.hpp:39-41 | sets the heading; its frame lets nothing else change |
| `SnakeSegments.SnakeSegments.SetSegment` | SnakeController/SnakeSegments.hpp:57-60 | appends (x, y) at the back and keeps the earlier segments in order; `length` is outside its frame, so it is unchanged |
| `SnakeSegments.SnakeSegments.CalculateNewHead` | SnakeController/SnakeSegments.hpp:47-56 | requires a non-empty body; gives the head moved by RIGHT x+1, LEFT x-1, DOWN y+1, UP y-1, with exactly one coordinate changed; it is a function, so no state changes |
| `SnakeSegments.PushFrontKeepsNoRepeats` | SnakeController/SnakeController.cpp:142-149 | pushing a head that no segment occupies keeps the body free of repeated cells |
| `SnakeSegments.DropLastKeepsNoRepeats` | SnakeController/SnakeController.cpp:103-114 | dropping the tail keeps the body free of repeated cells |
| `Configuration.DirectionOf` | SnakeController/SnakeController.cpp:35-50 | a letter names a heading exactly when it is one of U, D, L, R, and then the heading's letter is that letter |
| `Configuration.DirectionLetterRoundTrip` | SnakeController/SnakeController.cpp:35-47 | each heading's letter reads back as that heading |
| `Configuration.ReadSegments` | SnakeController/SnakeController.cpp:51-57 | reading n pairs succeeds exactly when all n pairs are present; the result has n segments, and segment j is pair j in the order read, so the first pair is the head |
| `Configuration.Parse` | SnakeController/SnakeController.cpp:23-60 | checks in stream order, as the short-circuit test does. A configuration error results when a marker is present and wrong while the tokens before it were right: `W` first, then `F` after two numbers, then `S` after two more. It also results when the direction token is not U, D, L or R. Those are the only cases with that error. On success the dimension is (width, height), the food is (foodX, foodY), the heading is the letter read and the segments are the n pairs in order. A well-formed stream with good markers and a good letter always succeeds |
| `Configuration.ExampleConfiguration` | SnakeController/SnakeController.cpp:28-57 | `W 10 10 F 5 5 S R 3 3 1 2 1 1 1` gives a 10x10 map, food at (5,5), heading RIGHT and body (3,1),(2,1),(1,1) with the head first |
| `Configuration.RejectedConfigurations` | SnakeController/SnakeController.cpp:28-59 | markers out of order, the direction letter X, a number in a marker or direction position, and a wrong marker right at the end of a short stream all give a configuration error |
| `SnakeController.FindSegment` | SnakeController/SnakeController.cpp:65-66 | the index of the first segment equal to (x, y), or the length when there is none |
| `SnakeController.Controller.constructor` | SnakeController/SnakeController.cpp:19-21 | fresh empty body, `length` 0, not paused, nothing sent |
| `SnakeController.Controller.Create` | SnakeController/SnakeController.cpp:19-61 | fails exactly when `Parse` fails, with the same error. On success a fresh controller holds the parsed dimension, food, heading and segments, is not paused, has sent nothing, and has `length` 0 |
| `SnakeController.Controller.IsSegmentAtPosition` | SnakeController/SnakeController.cpp:63-67 | true exactly when some segment, the tail included, is at (x, y) |
| `SnakeController.Controller.IsPositionOutsideMap` | SnakeController/SnakeController.cpp:69-72 | true exactly when (x, y) is not `InMap`, the same test `Consistent()` uses: not 0 <= x < width and 0 <= y < height |
| `SnakeController.Controller.SendPlaceNewFood` | SnakeController/SnakeController.cpp:74-84 | the food becomes (x, y) and one Display(x, y, FOOD) is sent |
| `SnakeController.Controller.SendClearOldFood` | SnakeController/SnakeController.cpp:86-94 | one Display(food, FREE) is sent; nothing else changes |
| `SnakeController.Controller.RemoveTailSegment` | SnakeController/SnakeController.cpp:103-114 | sends Display(tail, FREE), then drops the last segment; `length` is unchanged |
| `SnakeController.Controller.AddHeadSegment` | SnakeController/SnakeController.cpp:116-126 | segments become [head] + old, `length` goes up by 1, and Display(head, SNAKE) is sent |
| `SnakeController.Controller.RemoveTailSegmentIfNotScored` | SnakeController/SnakeController.cpp:128-136 | a head on the food sends ScoreInd and then FoodReq and keeps the tail; any other head drops the tail and sends Display(tail, FREE) |
| `SnakeController.Controller.UpdateSegmentsIfSuccessfullMove` | SnakeController/SnakeController.cpp:138-154 | a head on the body or off the map sends only LooseInd and changes neither segments nor `length`. A legal head grows the body and sends Display SNAKE, then ScoreInd and FoodReq on food. Otherwise it drops the tail and sends Display SNAKE then Display FREE for the tail |
| `SnakeController.Controller.HandleTimeoutInd` | SnakeController/SnakeController.cpp:156-159 | the same three outcomes for the head `CalculateNewHead` gives (the controller's own `calculateNewHead` only forwards to it). On food: segments [h] + old and `length`+1. Elsewhere: the segment count is unchanged and the vacated cell is the old tail |
| `SnakeController.Controller.HandleDirectionInd` | SnakeController/SnakeController.cpp:161-168 | the heading becomes the requested one exactly when it is perpendicular to the current one, and stays otherwise |
| `SnakeController.Controller.UpdateFoodPosition` | SnakeController/SnakeController.cpp:170-179 | a candidate on the body or off the map sends one FoodReq and leaves the food alone. A valid one sends Display(old food, FREE) first when the clear policy asks for it, then sets the food and sends Display(x, y, FOOD) |
| `SnakeController.Controller.HandleFoodInd` | SnakeController/SnakeController.cpp:181-186 | as `UpdateFoodPosition` with the old food cell cleared, and cleared only after the candidate is accepted |
| `SnakeController.Controller.HandleFoodResp` | SnakeController/SnakeController.cpp:188-193 | as `UpdateFoodPosition` with nothing cleared |
| `SnakeController.Controller.HandlePauseInd` | SnakeController/SnakeController.cpp:195-198 | flips the paused flag |
| `SnakeController.Controller.Receive` | SnakeController/SnakeController.cpp:200-222 | a pause always flips the flag and changes nothing else. While paused, timeout and direction events change nothing and send nothing. Food events are handled in either state. An unknown event gives `UnexpectedEventException` with state and log unchanged. Every other event gives `Handled` with the handler's effect. A `Consistent()` game stays consistent |

## Left out

- Ports and events: `IPort`, `EventT`, `payload<>` and message ids are transport. Each `send` is an append to the ghost log `sent`. The message id switch is a match on the `Event` datatype, whose `Unknown` case is the default branch.
- Stream semantics: the configuration is read from tokens that are already split (`Sym` for a character, `Num` for an integer). A number in a character position reads as its first character, as the program does. The model does not follow some streams: one that ends before a marker check fails, one with a character where a number is read, and one with a negative segment count. For these it reports `MalformedConfig`, an error the program does not have. The program goes on with an unset or zeroed value, or a loop that will not stop. With a missing segment count it may even accept the stream with an empty body.
- Exception texts: both exceptions become error values (`ConfigurationError`, `UnexpectedEventException`) without their messages.
- Clear policy: the `std::function` passed to `updateFoodPosition` becomes the boolean `clearOldFood`.
- HandleTimeoutInd: requires a non-empty body. So does `Receive` for an unpaused timeout, because the source's `front()` on an empty list is undefined. A configuration with `n` = 0 is still accepted, as in the source.
- Integer width: coordinates and `length` are unbounded integers. C++ `int` overflow at the map edge or in `length++` is undefined, and it is not modelled.
- Dead code: the unused `scrInd` local and its assignments, `SnakeSegments::getLength` (its only caller feeds that local), `SnakeWorld::getScore` and the commented-out sends.
- `SnakeWorld` is not a separate unit: its two pairs are fields of `Controller`, and its port references are the log's port tags.
- The numeric encoding of `Direction` is not part of this model; the heading is a four-constructor datatype.
- The uninitialised heading of a newly built `SnakeSegments` is an arbitrary value in the model; construction through `Create` always sets it.
