/** What the game loops read from the window each pass: pending events and held keys. */
module Events {

  /** The three held keys the physics reads. */
  datatype Keys = Keys(left: bool, right: bool, space: bool)

  /** The keys the menu handler tells apart; every other key code is OtherKey. */
  datatype Key = KeyOne | KeyTwo | KeyM | OtherKey(code: int)

  /** A window event: the close request, a key press, or anything else. */
  datatype Event = Quit | KeyDown(key: Key) | OtherEvent

  /** One pass of a loop: the events that arrived since the last pass, and the keys held now. */
  datatype Input = Input(events: seq<Event>, keys: Keys)

  /** The held keys of each pass, in order. */
  function KeysOf(inputs: seq<Input>): (ks: seq<Keys>)
    ensures |ks| == |inputs|
    ensures forall i :: 0 <= i < |inputs| ==> ks[i] == inputs[i].keys
  {
    if inputs == [] then [] else [inputs[0].keys] + KeysOf(inputs[1..])
  }
}
