/**
  The part of a pygame event the screens look at: the event type, the mouse
  button and position, the key and the text the key produced.
*/
module Events {
  /** The keys the screens distinguish; every other key is `OtherKey`. */
  datatype Key = Return | Backspace | KeyR | OtherKey(code: int)

  datatype Event =
    | MouseDown(button: int, x: int, y: int)
    | MouseUp(button: int, x: int, y: int)
    | MouseMotion(x: int, y: int)
    | KeyDown(key: Key, unicode: string)
    | OtherEvent
}
