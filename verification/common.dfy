/** Small building blocks shared by the other modules. */
module Common {

  /** A PHP value that is either NULL or present. */
  datatype Option<+T> = None | Some(value: T)

  /** PHP's `empty()` (equivalently, falsiness) of a value that is NULL or a
      string: NULL, the empty string and the string "0" are all empty. */
  predicate IsEmpty(s: Option<string>)
  {
    s.None? || s.value == "" || s.value == "0"
  }
}
