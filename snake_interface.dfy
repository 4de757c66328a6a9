/**
 * The message vocabulary the controller shares with its collaborators:
 * headings, display cell values, the three outbound ports, the outbound
 * messages and the inbound events.
 */
module SnakeInterface {

  /** The snake's heading. */
  datatype Direction = Up | Down | Left | Right

  /** What a display notification says a cell now shows. */
  datatype Cell = Free | Snake | Food

  /** The three one-way outbound ports the controller sends on. */
  datatype Port = DisplayPort | FoodPort | ScorePort

  /** Outbound messages. */
  datatype Message =
    | DisplayInd(x: int, y: int, value: Cell)
    | ScoreInd
    | LooseInd
    | FoodReq

  /** One `send` on one port, as recorded in the controller's output log. */
  datatype Sent = Sent(port: Port, message: Message)

  /** A display notification for cell (x, y). */
  function Display(x: int, y: int, value: Cell): Sent
  {
    Sent(DisplayPort, DisplayInd(x, y, value))
  }

  /**
   * Inbound events, keyed by their message identifier. `Unknown` stands
   * for every identifier the controller does not recognise.
   */
  datatype Event =
    | TimeoutInd
    | DirectionInd(direction: Direction)
    | FoodInd(x: int, y: int)
    | FoodResp(x: int, y: int)
    | PauseInd
    | Unknown(messageId: int)

  /** The result of dispatching one event. */
  datatype Outcome = Handled | UnexpectedEventException
}
