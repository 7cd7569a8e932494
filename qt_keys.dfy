/** The part of a Qt key event the widgets look at: the key and the set of
    modifiers held with it. */
module QtKeys {

  datatype Key = Escape | Enter | Return | Space | Right | Up | Left | Down | W | One | OtherKey(code: int)

  datatype Modifier = Control | Shift | Alt | Meta

  datatype KeyEvent = KeyEvent(key: Key, modifiers: set<Modifier>)
}
