module Common {

  datatype Option<+T> = None | Some(value: T)

  /** A fact as a count. */
  function One(fact: bool): nat {
    if fact then 1 else 0
  }
}
